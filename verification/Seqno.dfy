/** Circular 16-bit sequence numbers, and the pairs (seqno, metric) that Babel compares. */
module Seqno {
  import opened Bytes

  const INFINITY: u16 := 0xFFFF

  /** Sign of s1 - s2 on the circle: bit 15 of s2 - s1 decides. */
  function SeqnoCompare(s1: u16, s2: u16): int {
    if s1 == s2 then 0
    else if (s2 - s1) % 0x1_0000 >= 0x8000 then 1
    else -1
  }

  function SeqnoPlus(s: u16, plus: int): u16 {
    (s + plus) % 0x1_0000
  }

  /** How far s lies ahead of base, going round the circle upwards. */
  function Ahead(base: u16, s: u16): nat {
    (s - base) % 0x1_0000
  }

  /** s lies in the half circle that starts at base. */
  predicate InWindow(base: u16, s: u16) {
    Ahead(base, s) < 0x8000
  }

  /**
   The comparison orders every unwrapped pair less than half a circle apart as the integers do;
   at exactly half a circle it answers "greater" both ways round, so the bound is exact.
   */
  lemma CompareIsIntegerOrder(a: int, b: int)
    requires -0x8000 <= a - b <= 0x8000
    ensures SeqnoCompare(a % 0x1_0000, b % 0x1_0000) ==
            if a == b then 0 else if a > b || a - b == -0x8000 then 1 else -1
  {
    var x, y := a % 0x1_0000, b % 0x1_0000;
    var qa, qb := a / 0x1_0000, b / 0x1_0000;
    assert a == qa * 0x1_0000 + x && b == qb * 0x1_0000 + y;
    assert -1 <= qa - qb <= 1;
  }

  lemma CompareInWindow(base: u16, s1: u16, s2: u16)
    requires InWindow(base, s1) && InWindow(base, s2)
    ensures SeqnoCompare(s1, s2) > 0 <==> Ahead(base, s1) > Ahead(base, s2)
    ensures s1 == s2 <==> Ahead(base, s1) == Ahead(base, s2)
  {
  }

  /** A distance: what an update announces and what a source entry remembers. */
  datatype Dist = Dist(seqno: u16, metric: u16)

  /** d is strictly better than e: the second half of update_feasible. */
  predicate Before(d: Dist, e: Dist) {
    SeqnoCompare(d.seqno, e.seqno) > 0 || (d.seqno == e.seqno && d.metric < e.metric)
  }

  /** d is at least as good as e. */
  predicate AtLeast(d: Dist, e: Dist) {
    SeqnoCompare(d.seqno, e.seqno) > 0 || (d.seqno == e.seqno && d.metric <= e.metric)
  }

  /** A number that grows with quality, inside one window. */
  function Rank(base: u16, d: Dist): int {
    Ahead(base, d.seqno) * 0x1_0000 + (INFINITY - d.metric)
  }

  /** Inside one window the code's circular comparison is the order of Rank, hence total and transitive. */
  lemma RankOrders(base: u16, d: Dist, e: Dist)
    requires InWindow(base, d.seqno) && InWindow(base, e.seqno)
    ensures Before(d, e) <==> Rank(base, d) > Rank(base, e)
    ensures AtLeast(d, e) <==> Rank(base, d) >= Rank(base, e)
  {
    CompareInWindow(base, d.seqno, e.seqno);
  }
}
