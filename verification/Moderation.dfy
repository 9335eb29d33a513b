/**
 What holds Babel's sending back: buffered updates are sorted and repeated ones are sent once, and packets
 leave an interface only as fast as its bucket of tokens is filled.
 */
module Moderation {
  import opened Bytes

  // ---- The order of buffered updates ----

  datatype Buffered = Buffered(id: RouterId, prefix: Prefix)

  predicate IsV4(p: Prefix) {
    p.plen >= 96 && V4Mapped(p.addr)
  }

  /** A host route whose address ends in the originator's identifier. */
  predicate IsOwn(b: Buffered) {
    !IsV4(b.prefix) && b.prefix.plen == 128 && b.prefix.addr[8..] == b.id
  }

  function Flag(x: bool): int {
    if x then 1 else 0
  }

  /** compare_buffered_updates: by originator, IPv6 before IPv4, own addresses first, longer prefixes first. */
  function Compare(a: Buffered, b: Buffered): int {
    var rc := MemCmp(a.id, b.id);
    if rc != 0 then rc
    else if IsV4(a.prefix) != IsV4(b.prefix) then (if IsV4(a.prefix) then 1 else -1)
    else if IsOwn(a) != IsOwn(b) then (if IsOwn(a) then -1 else 1)
    else if a.prefix.plen != b.prefix.plen then (if a.prefix.plen < b.prefix.plen then 1 else -1)
    else MemCmp(a.prefix.addr, b.prefix.addr)
  }

  /** The order sorting relies on: antisymmetric, with only equal updates comparing equal. */
  lemma CompareAntisymmetric(a: Buffered, b: Buffered)
    ensures Compare(a, b) < 0 <==> Compare(b, a) > 0
    ensures Compare(a, b) == 0 <==> a == b
  {
    hide MemCmp, IsV4, IsOwn;
    MemCmpAntisymmetric(a.id, b.id);
    MemCmpAntisymmetric(b.id, a.id);
    MemCmpAntisymmetric(a.prefix.addr, b.prefix.addr);
  }

  lemma CompareTransitive(a: Buffered, b: Buffered, c: Buffered)
    requires Compare(a, b) <= 0 && Compare(b, c) <= 0
    ensures Compare(a, c) <= 0
  {
    hide MemCmp, IsV4, IsOwn;
    MemCmpAntisymmetric(a.id, b.id);
    MemCmpAntisymmetric(b.id, c.id);
    MemCmpAntisymmetric(a.id, c.id);
    MemCmpTransitive(a.id, b.id, c.id);
    if a.id == b.id == c.id && a.prefix.plen == b.prefix.plen == c.prefix.plen {
      if MemCmp(a.prefix.addr, b.prefix.addr) <= 0 && MemCmp(b.prefix.addr, c.prefix.addr) <= 0 {
        MemCmpTransitive(a.prefix.addr, b.prefix.addr, c.prefix.addr);
      }
    }
  }

  predicate Sorted(b: seq<Buffered>) {
    forall i, j :: 0 <= i < j < |b| ==> Compare(b[i], b[j]) <= 0
  }

  // ---- Sending each once ----

  /** What the tables say about a prefix: announced, kept quiet by split horizon, or gone. */
  datatype Fate = Announce | Quiet | Retract

  /** The originator is looked up by prefix, so one prefix has one originator. */
  predicate OneOrigin(b: seq<Buffered>) {
    forall i, j :: 0 <= i < |b| && 0 <= j < |b| && b[i].prefix == b[j].prefix ==> b[i].id == b[j].id
  }

  /** Repetitions of a prefix are neighbours. */
  lemma RepeatsAreAdjacent(b: seq<Buffered>, i: nat, j: nat, k: nat)
    requires Sorted(b) && OneOrigin(b) && i < j < k < |b| && b[i].prefix == b[k].prefix
    ensures b[j] == b[i]
  {
    hide Compare;
    assert b[i] == b[k];
    CompareAntisymmetric(b[i], b[j]);
    CompareAntisymmetric(b[j], b[k]);
  }

  function Prefixes(b: seq<Buffered>): seq<Prefix> {
    seq(|b|, i requires 0 <= i < |b| => b[i].prefix)
  }

  /** How often each prefix goes out: an announcement once, a retraction as often as it was asked for. */
  function Times(b: seq<Buffered>, fate: Prefix -> Fate, p: Prefix): nat {
    match fate(p)
    case Announce => if p in Prefixes(b) then 1 else 0
    case Quiet => 0
    case Retract => multiset(Prefixes(b))[p]
  }

  lemma TimesNext(b: seq<Buffered>, fate: Prefix -> Fate, i: nat, p: Prefix)
    requires i < |b|
    ensures var q := b[i].prefix;
            Times(b[..i + 1], fate, p) ==
            if p != q then Times(b[..i], fate, p)
            else match fate(p)
              case Announce => 1
              case Quiet => 0
              case Retract => Times(b[..i], fate, p) + 1
    ensures fate(p).Quiet? ==> Times(b[..i], fate, p) == 0
  {
    assert Prefixes(b[..i + 1]) == Prefixes(b[..i]) + [b[i].prefix];
  }

  /** Only the neighbour needs looking at. */
  lemma SeenBefore(b: seq<Buffered>, i: nat)
    requires Sorted(b) && OneOrigin(b) && i < |b| && b[i].prefix in Prefixes(b[..i])
    ensures i > 0 && b[i - 1].prefix == b[i].prefix
  {
    hide Sorted, OneOrigin;
    var j :| 0 <= j < i && Prefixes(b[..i])[j] == b[i].prefix;
    if j < i - 1 {
      RepeatsAreAdjacent(b, j, i - 1, i);
    }
  }

  /** What the loop of flushupdates sends, and the prefix it announced last. */
  function Emit(b: seq<Buffered>, fate: Prefix -> Fate): (r: (seq<Prefix>, seq<Prefix>))
    ensures |r.0| <= |b|
  {
    if b == [] then ([], [])
    else
      var p := b[|b| - 1].prefix;
      var (sent, last) := Emit(b[..|b| - 1], fate);
      if last == [p] then (sent, last)
      else
        match fate(p)
        case Announce => (sent + [p], [p])
        case Quiet => (sent, last)
        case Retract => (sent + [p], last)
  }

  lemma EmitNext(b: seq<Buffered>, fate: Prefix -> Fate, i: nat)
    requires i < |b|
    ensures var p := b[i].prefix;
            var (sent, last) := Emit(b[..i], fate);
            Emit(b[..i + 1], fate) ==
            if last == [p] || fate(p).Quiet? then (sent, last)
            else if fate(p).Announce? then (sent + [p], [p])
            else (sent + [p], last)
  {
    assert b[..i + 1][..i] == b[..i];
  }

  /** Along the loop: the counts are right, and the last prefix announced is the last one that was to be. */
  lemma {:induction false} EmitCounts(b: seq<Buffered>, fate: Prefix -> Fate, i: nat)
    requires Sorted(b) && OneOrigin(b) && i <= |b|
    ensures var (sent, last) := Emit(b[..i], fate);
            && Counted(sent, b, fate, i)
            && (last == [] || (|last| == 1 && fate(last[0]).Announce? && Times(b[..i], fate, last[0]) == 1))
            && (i > 0 && fate(b[i - 1].prefix).Announce? ==> last == [b[i - 1].prefix])
  {
    hide Sorted, OneOrigin, Times, Emit;
    if i == 0 {
      NothingYet(b, fate);
      EmitNothing(fate);
      assert b[..0] == [];
    } else {
      EmitCounts(b, fate, i - 1);
      EmitNext(b, fate, i - 1);
      var p := b[i - 1].prefix;
      var (sent, last) := Emit(b[..i - 1], fate);
      TimesNext(b, fate, i - 1, p);
      if last != [] {
        TimesNext(b, fate, i - 1, last[0]);
      }
      assert CountedAt(sent, b, fate, i - 1, p);
      if last != [p] && fate(p).Announce? {
        NotSeen(b, fate, i - 1);
      }
      CountedNext(sent, Emit(b[..i], fate).0, b, fate, i - 1);
    }
  }

  lemma EmitNothing(fate: Prefix -> Fate)
    ensures Emit([], fate) == ([], [])
  {
  }

  lemma NothingYet(b: seq<Buffered>, fate: Prefix -> Fate)
    ensures Counted([], b, fate, 0)
  {
    assert Prefixes(b[..0]) == [];
  }

  predicate CountedAt(sent: seq<Prefix>, b: seq<Buffered>, fate: Prefix -> Fate, i: nat, p: Prefix)
    requires i <= |b|
  {
    multiset(sent)[p] == Times(b[..i], fate, p)
  }

  ghost predicate Counted(sent: seq<Prefix>, b: seq<Buffered>, fate: Prefix -> Fate, i: nat)
    requires i <= |b|
  {
    forall p :: CountedAt(sent, b, fate, i, p)
  }

  /** Only the prefix at hand can have changed its count. */
  lemma CountedNext(sent: seq<Prefix>, sent': seq<Prefix>, b: seq<Buffered>, fate: Prefix -> Fate, i: nat)
    requires i < |b| && Counted(sent, b, fate, i) && (sent' == sent || sent' == sent + [b[i].prefix])
    requires CountedAt(sent', b, fate, i + 1, b[i].prefix)
    ensures Counted(sent', b, fate, i + 1)
  {
    hide Times;
    var j := i + 1;
    forall p
      ensures CountedAt(sent', b, fate, j, p)
    {
      assert CountedAt(sent, b, fate, i, p);
      TimesNext(b, fate, i, p);
    }
  }

  lemma NotSeen(b: seq<Buffered>, fate: Prefix -> Fate, i: nat)
    requires Sorted(b) && OneOrigin(b) && i < |b| && fate(b[i].prefix).Announce?
    requires i == 0 || b[i - 1].prefix != b[i].prefix
    ensures Times(b[..i], fate, b[i].prefix) == 0
  {
    hide Sorted, OneOrigin;
    if b[i].prefix in Prefixes(b[..i]) {
      SeenBefore(b, i);
    }
  }

  // ---- From what was buffered ----

  /** Filling in the originator of each buffered prefix. */
  function Filled(ps: seq<Prefix>, id: Prefix -> RouterId): (b: seq<Buffered>)
    ensures |b| == |ps| && forall k | 0 <= k < |ps| :: b[k] == Buffered(id(ps[k]), ps[k])
  {
    seq(|ps|, k requires 0 <= k < |ps| => Buffered(id(ps[k]), ps[k]))
  }

  function Insert(x: Buffered, b: seq<Buffered>): seq<Buffered> {
    if b == [] then [x]
    else if Compare(b[|b| - 1], x) <= 0 then b + [x]
    else Insert(x, b[..|b| - 1]) + [b[|b| - 1]]
  }

  function SortOf(b: seq<Buffered>): seq<Buffered> {
    if b == [] then [] else Insert(b[|b| - 1], SortOf(b[..|b| - 1]))
  }

  lemma {:induction false} InsertSorts(x: Buffered, b: seq<Buffered>)
    requires Sorted(b)
    ensures Sorted(Insert(x, b)) && multiset(Insert(x, b)) == multiset(b) + multiset{x}
    decreases |b|
  {
    hide Compare;
    if b != [] {
      var n := |b| - 1;
      var y := b[n];
      assert b == b[..n] + [y];
      if Compare(y, x) <= 0 {
        forall i | 0 <= i < |b| ensures Compare(b[i], x) <= 0 {
          if i < n {
            CompareTransitive(b[i], y, x);
          }
        }
      } else {
        InsertSorts(x, b[..n]);
        CompareAntisymmetric(x, y);
        CompareAntisymmetric(y, x);
        var c := Insert(x, b[..n]);
        forall i | 0 <= i < |c| ensures Compare(c[i], y) <= 0 {
          assert c[i] in multiset(c);
          assert c[i] == x || c[i] in b[..n];
        }
      }
    }
  }

  lemma {:induction false} SortSorts(b: seq<Buffered>)
    ensures Sorted(SortOf(b)) && multiset(SortOf(b)) == multiset(b)
  {
    if b != [] {
      var n := |b| - 1;
      SortSorts(b[..n]);
      InsertSorts(b[n], SortOf(b[..n]));
      assert b == b[..n] + [b[n]];
    }
  }

  lemma Without<T>(b: seq<T>, i: nat)
    requires i < |b|
    ensures multiset(b[..i] + b[i + 1..]) == multiset(b) - multiset{b[i]}
  {
    assert b == b[..i] + [b[i]] + b[i + 1..];
    assert multiset(b) == multiset(b[..i]) + multiset{b[i]} + multiset(b[i + 1..]);
  }

  lemma SameLast(a: seq<Buffered>, b: seq<Buffered>)
    requires Sorted(a) && Sorted(b) && multiset(a) == multiset(b) && a != []
    ensures |a| == |b| && a[|a| - 1] == b[|a| - 1]
  {
    hide Compare;
    assert |a| == |multiset(a)| == |multiset(b)| == |b|;
    var n := |a| - 1;
    assert a[n] in multiset(b) && b[n] in multiset(a);
    var i :| 0 <= i < |b| && b[i] == a[n];
    var j :| 0 <= j < |a| && a[j] == b[n];
    CompareAntisymmetric(a[n], b[n]);
    CompareAntisymmetric(b[n], a[n]);
  }

  lemma SortedPrefix(a: seq<Buffered>, n: nat)
    requires Sorted(a) && n <= |a|
    ensures Sorted(a[..n])
  {
  }

  /** There is only one sorted arrangement: whatever algorithm sorts, this is its result. */
  lemma {:induction false} SortedIsUnique(a: seq<Buffered>, b: seq<Buffered>)
    requires Sorted(a) && Sorted(b) && multiset(a) == multiset(b)
    ensures a == b
    decreases |a|
  {
    hide Sorted;
    assert |a| == |multiset(a)| == |multiset(b)| == |b|;
    if a != [] {
      var n := |a| - 1;
      SameLast(a, b);
      Without(a, n);
      Without(b, n);
      assert a[..n] + a[n + 1..] == a[..n] && b[..n] + b[n + 1..] == b[..n];
      SortedPrefix(a, n);
      SortedPrefix(b, n);
      SortedIsUnique(a[..n], b[..n]);
      assert a == a[..n] + [a[n]] && b == b[..n] + [b[n]];
    }
  }

  /** The prefixes a flush sends, in order, for those buffered. */
  function Sends(ps: seq<Prefix>, id: Prefix -> RouterId, fate: Prefix -> Fate): seq<Prefix> {
    Emit(SortOf(Filled(ps, id)), fate).0
  }

  /** How often each buffered prefix is to go out. */
  function Due(ps: seq<Prefix>, fate: Prefix -> Fate, p: Prefix): nat {
    match fate(p)
    case Announce => if p in ps then 1 else 0
    case Quiet => 0
    case Retract => multiset(ps)[p]
  }

  /** Each announcement once however often it was buffered, each retraction as often as it was. */
  lemma SendsOnce(ps: seq<Prefix>, id: Prefix -> RouterId, fate: Prefix -> Fate, p: Prefix)
    ensures multiset(Sends(ps, id, fate))[p] == Due(ps, fate, p)
  {
    hide Emit, Times, Sorted;
    var b, s := Filled(ps, id), SortOf(Filled(ps, id));
    SortSorts(b);
    forall i, j | 0 <= i < |s| && 0 <= j < |s| && s[i].prefix == s[j].prefix ensures s[i].id == s[j].id {
      assert s[i] in multiset(b) && s[j] in multiset(b);
    }
    EmitCounts(s, fate, |s|);
    assert s[..|s|] == s;
    assert CountedAt(Sends(ps, id, fate), s, fate, |s|, p);
    SamePrefixes(b, s);
    assert Prefixes(b) == ps;
    TimesIsDue(s, ps, fate, p);
  }

  lemma TimesIsDue(s: seq<Buffered>, ps: seq<Prefix>, fate: Prefix -> Fate, p: Prefix)
    requires multiset(Prefixes(s)) == multiset(ps)
    ensures Times(s, fate, p) == Due(ps, fate, p)
  {
    assert p in Prefixes(s) <==> p in multiset(Prefixes(s));
    assert p in ps <==> p in multiset(ps);
  }

  lemma {:induction false} SamePrefixes(a: seq<Buffered>, b: seq<Buffered>)
    requires multiset(a) == multiset(b)
    ensures multiset(Prefixes(a)) == multiset(Prefixes(b))
    decreases |a|
  {
    assert |a| == |multiset(a)| == |multiset(b)| == |b|;
    if a == [] {
      assert Prefixes(a) == [] && Prefixes(b) == [];
    } else {
      var n := |a| - 1;
      assert a[n] in multiset(b);
      var i :| 0 <= i < |b| && b[i] == a[n];
      Without(a, n);
      Without(b, i);
      assert a[..n] + a[n + 1..] == a[..n];
      SamePrefixes(a[..n], b[..i] + b[i + 1..]);
      PrefixesWithout(a, n);
      PrefixesWithout(b, i);
      AddBack(multiset(Prefixes(a)), multiset(Prefixes(b)), a[n].prefix);
    }
  }

  lemma AddBack(a: multiset<Prefix>, b: multiset<Prefix>, p: Prefix)
    requires p in a && p in b && a - multiset{p} == b - multiset{p}
    ensures a == b
  {
    assert a == (a - multiset{p}) + multiset{p} && b == (b - multiset{p}) + multiset{p};
  }

  lemma PrefixesWithout(b: seq<Buffered>, i: nat)
    requires i < |b|
    ensures multiset(Prefixes(b[..i] + b[i + 1..])) == multiset(Prefixes(b)) - multiset{b[i].prefix}
    ensures b[i].prefix in multiset(Prefixes(b))
  {
    Without(Prefixes(b), i);
    assert Prefixes(b[..i] + b[i + 1..]) == Prefixes(b)[..i] + Prefixes(b)[i + 1..];
    assert Prefixes(b)[i] == b[i].prefix;
  }

  /** Fills in the originators of a list and sorts it in place, one insertion after the other. */
  method FillAndSort(ps: seq<Prefix>, id: Prefix -> RouterId) returns (b: seq<Buffered>)
    ensures b == SortOf(Filled(ps, id))
  {
    var filled: seq<Buffered> := [];
    var i := 0;
    while i < |ps|
      invariant 0 <= i <= |ps| && filled == Filled(ps[..i], id)
    {
      filled := filled + [Buffered(id(ps[i]), ps[i])];
      i := i + 1;
    }
    assert ps[..i] == ps;
    b := SortBuffer(filled);
  }

  /** Any sorting algorithm will do: the result is a sorted arrangement, and there is only one. */
  method SortBuffer(b: seq<Buffered>) returns (s: seq<Buffered>)
    ensures Sorted(s) && multiset(s) == multiset(b) && s == SortOf(b)
  {
    s := [];
    var i := 0;
    while i < |b|
      invariant 0 <= i <= |b| && Sorted(s) && multiset(s) == multiset(b[..i])
    {
      InsertSorts(b[i], s);
      assert b[..i + 1] == b[..i] + [b[i]];
      s := Insert(b[i], s);
      i := i + 1;
    }
    assert b[..i] == b;
    SortSorts(b);
    SortedIsUnique(s, SortOf(b));
  }

  // ---- The bucket ----

  const TOKENS_MAX: nat := 200
  const TOKENS_PER_SEC: nat := 40

  datatype Bucket = Bucket(tokens: nat, time: int)

  function Refilled(b: Bucket, now: int): Bucket {
    if b.tokens != 0 then b
    else if now - b.time <= 0 then Bucket(0, now)
    else
      var tokens := (now - b.time) * TOKENS_PER_SEC;
      Bucket(if tokens < TOKENS_MAX then tokens else TOKENS_MAX, now)
  }

  predicate Admits(b: Bucket, now: int) {
    Refilled(b, now).tokens > 0
  }

  function Drawn(b: Bucket, now: int): Bucket {
    var r := Refilled(b, now);
    if r.tokens > 0 then r.(tokens := r.tokens - 1) else r
  }

  class Limiter {
    var bucket: nat
    var bucketTime: int

    constructor (now: int)
      ensures bucket == TOKENS_MAX && bucketTime == now
    {
      bucket, bucketTime := TOKENS_MAX, now;
    }

    method Check(now: int) returns (ok: bool)
      modifies this
      ensures ok == old(Admits(Bucket(bucket, bucketTime), now))
      ensures Bucket(bucket, bucketTime) == old(Drawn(Bucket(bucket, bucketTime), now))
    {
      if bucket == 0 {
        var seconds := now - bucketTime;
        if seconds > 0 {
          bucket := if TOKENS_MAX < seconds * TOKENS_PER_SEC then TOKENS_MAX else seconds * TOKENS_PER_SEC;
        }
        bucketTime := now;
      }
      if bucket > 0 {
        bucket := bucket - 1;
        return true;
      }
      return false;
    }
  }

  function After(b: Bucket, times: seq<int>): Bucket {
    if times == [] then b else Drawn(After(b, times[..|times| - 1]), times[|times| - 1])
  }

  function Admitted(b: Bucket, times: seq<int>): nat {
    if times == [] then 0
    else Admitted(b, times[..|times| - 1]) + Flag(Admits(After(b, times[..|times| - 1]), times[|times| - 1]))
  }

  /** The clock does not run backwards. */
  predicate Orderly(b: Bucket, times: seq<int>) {
    && (forall i :: 0 <= i < |times| ==> b.time <= times[i])
    && (forall i, j :: 0 <= i < j < |times| ==> times[i] <= times[j])
  }

  lemma {:induction false} Spending(b: Bucket, times: seq<int>)
    requires b.tokens <= TOKENS_MAX && Orderly(b, times)
    ensures var a := After(b, times);
            && a.tokens <= TOKENS_MAX && b.time <= a.time && (times != [] ==> a.time <= times[|times| - 1])
            && (times == [] ==> a == b)
            && a.tokens + Admitted(b, times) <= b.tokens + TOKENS_PER_SEC * (a.time - b.time)
    decreases |times|
  {
    if times != [] {
      Spending(b, times[..|times| - 1]);
    }
  }

  /** From the moment the interface comes up: two hundred packets at once, and forty for every second since. */
  lemma RateSinceStart(start: int, times: seq<int>)
    requires Orderly(Bucket(TOKENS_MAX, start), times) && times != []
    ensures Admitted(Bucket(TOKENS_MAX, start), times) <= TOKENS_MAX + TOKENS_PER_SEC * (times[|times| - 1] - start)
  {
    Spending(Bucket(TOKENS_MAX, start), times);
  }

  lemma {:induction false} Burst(b: Bucket, times: seq<int>)
    requires b.tokens <= TOKENS_MAX && Orderly(b, times)
    ensures var a := After(b, times);
            && a.tokens <= TOKENS_MAX && a.time >= b.time && (times != [] ==> a.time <= times[|times| - 1])
            && (a.time == b.time ==> a.tokens + Admitted(b, times) <= b.tokens)
            && (a.time > b.time ==>
                  && times != [] && times[0] <= a.time
                  && a.tokens + Admitted(b, times) <= b.tokens + TOKENS_MAX + TOKENS_PER_SEC * (a.time - times[0]))
    decreases |times|
  {
    if times != [] {
      Burst(b, times[..|times| - 1]);
    }
  }

  /** In any stretch of time, whatever came before it. */
  lemma RateInAnyWindow(b: Bucket, times: seq<int>)
    requires b.tokens <= TOKENS_MAX && Orderly(b, times) && times != []
    ensures Admitted(b, times) <= 2 * TOKENS_MAX + TOKENS_PER_SEC * (times[|times| - 1] - times[0])
  {
    Burst(b, times);
  }
}
