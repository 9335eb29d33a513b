/**
 The shape of babeld's route table: an array of slots ordered by destination, each slot a list of
 routes to one destination.  As a dictionary it maps each destination to its list.
 */
module Slots {
  import opened Bytes
  import opened Seqno
  import opened BabelNode

  /** A route together with its smoothed metric. */
  datatype Entry = Entry(route: Route, smoothed: u16, smoothedTime: int)

  function Routes(l: seq<Entry>): (rs: seq<Route>)
    ensures |rs| == |l|
    ensures forall i | 0 <= i < |l| :: rs[i] == l[i].route
  {
    seq(|l|, i requires 0 <= i < |l| => l[i].route)
  }

  /** route_compare: by address, then by length. */
  function PrefixCompare(p: Prefix, q: Prefix): int {
    var i := MemCmp(p.addr, q.addr);
    if i != 0 then i
    else if p.plen < q.plen then -1
    else if p.plen > q.plen then 1
    else 0
  }

  lemma PrefixCompareTotal(p: Prefix, q: Prefix)
    ensures PrefixCompare(p, q) == 0 <==> p == q
    ensures PrefixCompare(p, q) < 0 <==> PrefixCompare(q, p) > 0
    ensures PrefixCompare(p, q) > 0 <==> PrefixCompare(q, p) < 0
  {
    MemCmpAntisymmetric(p.addr, q.addr);
  }

  lemma PrefixCompareTransitive(p: Prefix, q: Prefix, r: Prefix)
    requires PrefixCompare(p, q) <= 0 && PrefixCompare(q, r) <= 0
    ensures PrefixCompare(p, r) <= 0
    ensures PrefixCompare(p, q) < 0 || PrefixCompare(q, r) < 0 ==> PrefixCompare(p, r) < 0
  {
    MemCmpTransitive(p.addr, q.addr, r.addr);
    MemCmpAntisymmetric(p.addr, q.addr);
    MemCmpAntisymmetric(q.addr, r.addr);
    MemCmpAntisymmetric(p.addr, r.addr);
  }

  predicate OneDestination(l: seq<Entry>) {
    l != [] && forall j | 0 <= j < |l| :: l[j].route.src.prefix == l[0].route.src.prefix
  }

  function Destination(l: seq<Entry>): Prefix
    requires l != []
  {
    l[0].route.src.prefix
  }

  /** Every slot holds one destination, and no two the same one. */
  predicate Distinct(slots: seq<seq<Entry>>) {
    && (forall i | 0 <= i < |slots| :: OneDestination(slots[i]))
    && (forall i, j | 0 <= i < j < |slots| :: Destination(slots[i]) != Destination(slots[j]))
  }

  predicate Ascending(slots: seq<seq<Entry>>)
    requires forall i | 0 <= i < |slots| :: slots[i] != []
  {
    forall i, j | 0 <= i < j < |slots| :: PrefixCompare(Destination(slots[i]), Destination(slots[j])) < 0
  }

  /** The dictionary that the slots represent. */
  function TableOf(slots: seq<seq<Entry>>): map<Prefix, seq<Route>>
    requires forall i | 0 <= i < |slots| :: slots[i] != []
  {
    if slots == [] then map[]
    else
      var k := |slots| - 1;
      TableOf(slots[..k])[Destination(slots[k]) := Routes(slots[k])]
  }

  /** Slot i holds the list of destination p. */
  predicate SlotFor(slots: seq<seq<Entry>>, i: int, p: Prefix) {
    0 <= i < |slots| && slots[i] != [] && Destination(slots[i]) == p
  }

  lemma {:induction false} TableAt(slots: seq<seq<Entry>>, i: nat)
    requires Distinct(slots) && i < |slots|
    ensures Destination(slots[i]) in TableOf(slots) && TableOf(slots)[Destination(slots[i])] == Routes(slots[i])
  {
    var k := |slots| - 1;
    if i < k {
      TableAt(slots[..k], i);
    }
  }

  lemma {:induction false} TableHas(slots: seq<seq<Entry>>, p: Prefix) returns (i: int)
    requires Distinct(slots)
    ensures p in TableOf(slots) <==> i >= 0
    ensures i >= 0 ==> SlotFor(slots, i, p) && TableOf(slots)[p] == Routes(slots[i])
    ensures i < 0 ==> forall j | 0 <= j < |slots| :: Destination(slots[j]) != p
  {
    if slots == [] {
      i := -1;
    } else {
      var k := |slots| - 1;
      if Destination(slots[k]) == p {
        i := k;
      } else {
        i := TableHas(slots[..k], p);
        assert forall j | 0 <= j < k :: slots[..k][j] == slots[j];
      }
    }
  }

  /** A dictionary is determined by which list each destination has. */
  lemma TableDetermined(slots: seq<seq<Entry>>, t: map<Prefix, seq<Route>>)
    requires Distinct(slots)
    requires forall i | 0 <= i < |slots| ::
               Destination(slots[i]) in t && t[Destination(slots[i])] == Routes(slots[i])
    requires forall p | p in t :: exists i :: SlotFor(slots, i, p)
    ensures TableOf(slots) == t
  {
    var t' := TableOf(slots);
    forall p | p in t
      ensures p in t' && t'[p] == t[p]
    {
      var i :| SlotFor(slots, i, p);
      TableAt(slots, i);
    }
    forall p | p in t'
      ensures p in t
    {
      var i := TableHas(slots, p);
    }
    assert t'.Keys == t.Keys;
  }

  lemma SetKeepsOrder(slots: seq<seq<Entry>>, i: nat, l: seq<Entry>)
    requires Distinct(slots) && i < |slots| && OneDestination(l) && Destination(l) == Destination(slots[i])
    ensures Distinct(slots[i := l])
    ensures Ascending(slots) ==> Ascending(slots[i := l])
  {
  }

  /** Replacing the list in a slot. */
  lemma SetSlot(slots: seq<seq<Entry>>, i: nat, l: seq<Entry>)
    requires Distinct(slots) && i < |slots| && OneDestination(l) && Destination(l) == Destination(slots[i])
    ensures Distinct(slots[i := l])
    ensures Ascending(slots) ==> Ascending(slots[i := l])
    ensures TableOf(slots[i := l]) == TableOf(slots)[Destination(l) := Routes(l)]
  {
    var t := TableOf(slots)[Destination(l) := Routes(l)];
    var slots' := slots[i := l];
    SetKeepsOrder(slots, i, l);
    forall k | 0 <= k < |slots'|
      ensures Destination(slots'[k]) in t && t[Destination(slots'[k])] == Routes(slots'[k])
    {
      TableAt(slots, k);
    }
    forall p | p in t
      ensures exists k :: SlotFor(slots', k, p)
    {
      if p == Destination(l) {
        assert SlotFor(slots', i, p);
      } else {
        var k := TableHas(slots, p);
        assert SlotFor(slots', k, p);
      }
    }
    TableDetermined(slots', t);
  }

  /** Place n is where a slot for p belongs. */
  predicate Fits(slots: seq<seq<Entry>>, n: nat, p: Prefix)
    requires forall i | 0 <= i < |slots| :: slots[i] != []
  {
    && n <= |slots|
    && (forall i | 0 <= i < n :: PrefixCompare(Destination(slots[i]), p) < 0)
    && (forall i | n <= i < |slots| :: PrefixCompare(p, Destination(slots[i])) < 0)
  }

  lemma FitsAbsent(slots: seq<seq<Entry>>, n: nat, p: Prefix)
    requires Distinct(slots) && Fits(slots, n, p)
    ensures forall i | 0 <= i < |slots| :: Destination(slots[i]) != p
    ensures p !in TableOf(slots)
  {
    PrefixCompareTotal(p, p);
    var i := TableHas(slots, p);
  }

  function Inserted(slots: seq<seq<Entry>>, n: nat, l: seq<Entry>): seq<seq<Entry>>
    requires n <= |slots|
  {
    slots[..n] + [l] + slots[n..]
  }

  lemma InsertedAt(slots: seq<seq<Entry>>, n: nat, l: seq<Entry>, k: nat)
    requires n <= |slots| && k <= |slots|
    ensures |Inserted(slots, n, l)| == |slots| + 1
    ensures Inserted(slots, n, l)[k] == if k < n then slots[k] else if k == n then l else slots[k - 1]
  {
  }

  lemma InsertKeepsOrder(slots: seq<seq<Entry>>, n: nat, l: seq<Entry>)
    requires Distinct(slots) && Ascending(slots) && OneDestination(l) && Fits(slots, n, Destination(l))
    ensures Distinct(Inserted(slots, n, l)) && Ascending(Inserted(slots, n, l))
  {
    var slots' := Inserted(slots, n, l);
    FitsAbsent(slots, n, Destination(l));
    forall k | 0 <= k < |slots'| ensures OneDestination(slots'[k]) {
      InsertedAt(slots, n, l, k);
    }
    forall i, j | 0 <= i < j < |slots'|
      ensures Destination(slots'[i]) != Destination(slots'[j])
      ensures PrefixCompare(Destination(slots'[i]), Destination(slots'[j])) < 0
    {
      InsertedAt(slots, n, l, i);
      InsertedAt(slots, n, l, j);
    }
  }

  /** Shifting the tail and putting a new slot in its place. */
  lemma InsertSlot(slots: seq<seq<Entry>>, n: nat, l: seq<Entry>)
    requires Distinct(slots) && Ascending(slots) && OneDestination(l) && Fits(slots, n, Destination(l))
    ensures Distinct(Inserted(slots, n, l)) && Ascending(Inserted(slots, n, l))
    ensures TableOf(Inserted(slots, n, l)) == TableOf(slots)[Destination(l) := Routes(l)]
  {
    var slots', t := Inserted(slots, n, l), TableOf(slots)[Destination(l) := Routes(l)];
    FitsAbsent(slots, n, Destination(l));
    InsertKeepsOrder(slots, n, l);
    forall k | 0 <= k < |slots'|
      ensures Destination(slots'[k]) in t && t[Destination(slots'[k])] == Routes(slots'[k])
    {
      InsertedAt(slots, n, l, k);
      if k != n {
        TableAt(slots, if k < n then k else k - 1);
      }
    }
    forall p | p in t
      ensures exists k :: SlotFor(slots', k, p)
    {
      var k := TableHas(slots, p);
      var k' := if p == Destination(l) then n else if k < n then k else k + 1;
      InsertedAt(slots, n, l, k');
      assert SlotFor(slots', k', p);
    }
    TableDetermined(slots', t);
  }

  function Dropped(slots: seq<seq<Entry>>, i: nat): (d: seq<seq<Entry>>)
    requires i < |slots|
    ensures |d| == |slots| - 1
  {
    slots[..i] + slots[i + 1..]
  }

  lemma DroppedAt(slots: seq<seq<Entry>>, i: nat, k: nat)
    requires i < |slots| && k + 1 < |slots|
    ensures Dropped(slots, i)[k] == slots[if k < i then k else k + 1]
  {
  }

  lemma DropKeepsOrder(slots: seq<seq<Entry>>, n: nat)
    requires Distinct(slots) && n < |slots|
    ensures Distinct(Dropped(slots, n))
    ensures Ascending(slots) ==> Ascending(Dropped(slots, n))
  {
    var slots' := Dropped(slots, n);
    forall i, j | 0 <= i < j < |slots'|
      ensures Destination(slots'[i]) != Destination(slots'[j])
      ensures Ascending(slots) ==> PrefixCompare(Destination(slots'[i]), Destination(slots'[j])) < 0
    {
      var i', j' := if i < n then i else i + 1, if j < n then j else j + 1;
      assert slots'[i] == slots[i'] && slots'[j] == slots[j'];
    }
  }

  lemma DropKeepsLists(slots: seq<seq<Entry>>, i: nat, k: nat)
    requires Distinct(slots) && i < |slots| && k + 1 < |slots|
    ensures var t := TableOf(slots) - {Destination(slots[i])};
            var l := Dropped(slots, i)[k];
            OneDestination(l) && Destination(l) in t && t[Destination(l)] == Routes(l)
  {
    var k' := if k < i then k else k + 1;
    DroppedAt(slots, i, k);
    TableAt(slots, k');
    assert Destination(slots[k']) != Destination(slots[i]);
  }

  lemma DropFindsLists(slots: seq<seq<Entry>>, i: nat, p: Prefix) returns (k: int)
    requires Distinct(slots) && i < |slots| && p in TableOf(slots) && p != Destination(slots[i])
    ensures SlotFor(Dropped(slots, i), k, p)
  {
    k := TableHas(slots, p);
    if k > i {
      k := k - 1;
    }
    DroppedAt(slots, i, k);
  }

  /** Dropping a slot and shifting the tail down. */
  lemma DropSlot(slots: seq<seq<Entry>>, i: nat)
    requires Distinct(slots) && i < |slots|
    ensures Distinct(Dropped(slots, i))
    ensures Ascending(slots) ==> Ascending(Dropped(slots, i))
    ensures TableOf(Dropped(slots, i)) == TableOf(slots) - {Destination(slots[i])}
  {
    hide Ascending, Routes, Dropped;
    DropKeepsOrder(slots, i);
    var slots', t := Dropped(slots, i), TableOf(slots) - {Destination(slots[i])};
    forall k | 0 <= k < |slots'|
      ensures Destination(slots'[k]) in t && t[Destination(slots'[k])] == Routes(slots'[k])
    {
      DropKeepsLists(slots, i, k);
    }
    forall p | p in t
      ensures exists k :: SlotFor(slots', k, p)
    {
      var k := DropFindsLists(slots, i, p);
    }
    TableDetermined(slots', t);
  }
}
