/**
 The sequence number window of keyed SHA1 authentication, section 6.7.4 of RFC 5880: a 32-bit number that
 wraps, judged against the last one accepted.
 */
module BfdAuth {
  import opened BfdSession

  const CIRCLE: int := 0x1_0000_0000

  /** bfd.AuthSeqKnown, bfd.RcvAuthSeq and when it was set. */
  datatype Window = Window(known: bool, last: u32, time: nat)

  /** A packet offered for authentication. */
  datatype Offer = Offer(seqno: u32, mult: u8, digestOk: bool, now: nat, detect: nat)

  function Lowest(meticulous: bool): nat {
    if meticulous then 1 else 0
  }

  function Highest(mult: u8): nat {
    3 * mult as int
  }

  /** How far ahead of b the number a is, going round the circle. */
  function Distance(a: u32, b: u32): nat {
    (a - b) % CIRCLE
  }

  /** Nothing has been accepted for twice the detection time. */
  predicate Stale(w: Window, o: Offer) {
    w.known && o.detect > 0 && o.now - w.time > 2 * o.detect
  }

  predicate InWindow(meticulous: bool, w: Window, o: Offer) {
    w.known && !Stale(w, o) ==> Lowest(meticulous) <= Distance(o.seqno, w.last) <= Highest(o.mult)
  }

  predicate Takes(meticulous: bool, w: Window, o: Offer) {
    InWindow(meticulous, w, o) && o.digestOk
  }

  /** The window moves to an accepted number, and is otherwise at most forgotten. */
  function Moved(meticulous: bool, w: Window, o: Offer): Window {
    if Takes(meticulous, w, o) then Window(true, o.seqno, o.now)
    else w.(known := w.known && !Stale(w, o))
  }

  class Auth {
    var known: bool
    var last: u32
    var time: nat

    function View(): Window
      reads this
    {
      Window(known, last, time)
    }

    method Check(meticulous: bool, o: Offer) returns (ok: bool)
      modifies this
      ensures ok == Takes(meticulous, old(View()), o)
      ensures View() == Moved(meticulous, old(View()), o)
    {
      if known && o.detect > 0 && o.now - time > 2 * o.detect {
        known := false;
      }
      if known {
        var lowest := if meticulous then 1 else 0;
        var highest := 3 * o.mult as int;
        var distance := (o.seqno - last) % CIRCLE;
        if distance < lowest || distance > highest {
          return false;
        }
      }
      if !o.digestOk {
        return false;
      }
      last := o.seqno;
      known := true;
      time := o.now;
      return true;
    }
  }

  /** A sender counts up from any start; its n-th packet carries n modulo the circle. */
  function Carried(n: nat): u32 {
    n % CIRCLE
  }

  lemma DistanceIsTrue(n: nat, m: nat)
    ensures 0 <= n - m < CIRCLE ==> Distance(Carried(n), Carried(m)) == n - m
    ensures -CIRCLE <= n - m < 0 ==> Distance(Carried(n), Carried(m)) == n - m + CIRCLE
  {
    var a, b := n / CIRCLE, m / CIRCLE;
    assert n == a * CIRCLE + Carried(n) && m == b * CIRCLE + Carried(m);
    var d := Carried(n) - Carried(m);
    assert -CIRCLE < d < CIRCLE;
    assert d % CIRCLE == if d < 0 then d + CIRCLE else d;
  }

  /**
   Among the numbers less than a circle ahead and no older than a circle short of the window, the window takes
   exactly the ones from the last accepted on (past it, if meticulous) to three times the multiplier ahead.
   */
  lemma WindowIsTrue(meticulous: bool, w: Window, o: Offer, n: nat, m: nat)
    requires w.known && !Stale(w, o) && w.last == Carried(m) && o.seqno == Carried(n)
    requires Highest(o.mult) - CIRCLE < n - m < CIRCLE
    ensures InWindow(meticulous, w, o) <==> Lowest(meticulous) <= n - m <= Highest(o.mult)
  {
    DistanceIsTrue(n, m);
  }

  /** The bound is exact: a packet older by a whole circle less the window is taken for a new one. */
  lemma OldestIsTaken(meticulous: bool, w: Window, o: Offer, n: nat, m: nat)
    requires w.known && !Stale(w, o) && w.last == Carried(m) && o.seqno == Carried(n) && o.mult > 0
    requires n - m == Highest(o.mult) - CIRCLE
    ensures InWindow(meticulous, w, o)
  {
    DistanceIsTrue(n, m);
  }

  // ---- A whole exchange ----

  /** A packet as the network delivers it: forged, or a true one with its count. */
  datatype Arrival = Arrival(n: nat, offer: Offer)

  function After(meticulous: bool, w: Window, ps: seq<Arrival>): Window {
    if ps == [] then w else Moved(meticulous, After(meticulous, w, ps[..|ps| - 1]), ps[|ps| - 1].offer)
  }

  predicate TakenAt(meticulous: bool, w: Window, ps: seq<Arrival>, i: nat)
    requires i < |ps|
  {
    Takes(meticulous, After(meticulous, w, ps[..i]), ps[i].offer)
  }

  /** The count of the packet accepted last among the first k, or start. */
  function LastTaken(meticulous: bool, w: Window, ps: seq<Arrival>, start: nat, k: nat): nat
    requires k <= |ps|
  {
    if k == 0 then start
    else if TakenAt(meticulous, w, ps, k - 1) then ps[k - 1].n
    else LastTaken(meticulous, w, ps, start, k - 1)
  }

  /**
   Only true packets have a good digest, none is delayed by so many that the circle comes round, and the window
   is never left alone for twice the detection time.
   */
  predicate Fair(meticulous: bool, w: Window, ps: seq<Arrival>, start: nat) {
    && w.known && w.last == Carried(start)
    && forall i :: 0 <= i < |ps| ==>
                     && !Stale(After(meticulous, w, ps[..i]), ps[i].offer)
                     && (ps[i].offer.digestOk ==>
                           && ps[i].offer.seqno == Carried(ps[i].n)
                           && Highest(ps[i].offer.mult) - CIRCLE
                              < ps[i].n - LastTaken(meticulous, w, ps, start, i) < CIRCLE)
  }

  /** The window always stands at the packet accepted last. */
  lemma {:induction false} WindowFollows(meticulous: bool, w: Window, ps: seq<Arrival>, start: nat, k: nat)
    requires Fair(meticulous, w, ps, start) && k <= |ps|
    ensures var v := After(meticulous, w, ps[..k]);
            v.known && v.last == Carried(LastTaken(meticulous, w, ps, start, k))
  {
    hide InWindow, Carried, Stale;
    if k == 0 {
      assert ps[..0] == [];
    } else {
      WindowFollows(meticulous, w, ps, start, k - 1);
      AfterNext(meticulous, w, ps, k);
    }
  }

  lemma AfterNext(meticulous: bool, w: Window, ps: seq<Arrival>, k: nat)
    requires 0 < k <= |ps|
    ensures After(meticulous, w, ps[..k]) == Moved(meticulous, After(meticulous, w, ps[..k - 1]), ps[k - 1].offer)
  {
    hide Moved;
    assert ps[..k][..k - 1] == ps[..k - 1];
  }

  /** Each accepted packet lies within the window of the one accepted before it, and after it if meticulous. */
  lemma TakenMovesOn(meticulous: bool, w: Window, ps: seq<Arrival>, start: nat, i: nat)
    requires Fair(meticulous, w, ps, start) && i < |ps|
    ensures TakenAt(meticulous, w, ps, i) <==>
            && ps[i].offer.digestOk
            && Lowest(meticulous) <= ps[i].n - LastTaken(meticulous, w, ps, start, i) <= Highest(ps[i].offer.mult)
  {
    hide After, LastTaken;
    WindowFollows(meticulous, w, ps, start, i);
    if ps[i].offer.digestOk {
      WindowIsTrue(meticulous, After(meticulous, w, ps[..i]), ps[i].offer, ps[i].n,
          LastTaken(meticulous, w, ps, start, i));
    }
  }

  lemma {:induction false} LastTakenGrows(meticulous: bool, w: Window, ps: seq<Arrival>, start: nat, i: nat, k: nat)
    requires Fair(meticulous, w, ps, start) && i <= k <= |ps|
    ensures LastTaken(meticulous, w, ps, start, i) <= LastTaken(meticulous, w, ps, start, k)
    decreases k
  {
    hide Fair, TakenAt;
    if i < k {
      LastTakenGrows(meticulous, w, ps, start, i, k - 1);
      TakenMovesOn(meticulous, w, ps, start, k - 1);
    }
  }

  /**
   No replay: however the network repeats and reorders, accepted packets are accepted in the order they were sent, and
   with meticulous keys each one only once.
   */
  lemma AcceptedInOrder(meticulous: bool, w: Window, ps: seq<Arrival>, start: nat, i: nat, j: nat)
    requires Fair(meticulous, w, ps, start) && i < j < |ps|
    requires TakenAt(meticulous, w, ps, i) && TakenAt(meticulous, w, ps, j)
    ensures ps[i].n + Lowest(meticulous) <= ps[j].n
  {
    hide Fair, TakenAt;
    LastTakenGrows(meticulous, w, ps, start, i + 1, j);
    TakenMovesOn(meticulous, w, ps, start, j);
    assert LastTaken(meticulous, w, ps, start, i + 1) == ps[i].n;
  }

  /** Genuine packets in the order sent, never three multipliers' worth lost in a row. */
  predicate Steady(ps: seq<Arrival>, start: nat) {
    forall i :: 0 <= i < |ps| ==>
                  && ps[i].offer.digestOk && ps[i].offer.seqno == Carried(ps[i].n)
                  && 1 <= ps[i].n - (if i == 0 then start else ps[i - 1].n) <= Highest(ps[i].offer.mult)
  }

  predicate Prompt(meticulous: bool, w: Window, ps: seq<Arrival>) {
    forall i :: 0 <= i < |ps| ==> !Stale(After(meticulous, w, ps[..i]), ps[i].offer)
  }

  /** A sender that keeps going is always believed, wrap-around included. */
  lemma {:induction false} SteadyIsAccepted(meticulous: bool, w: Window, ps: seq<Arrival>, start: nat, k: nat)
    requires w.known && w.last == Carried(start) && Steady(ps, start) && Prompt(meticulous, w, ps) && k <= |ps|
    ensures forall i :: 0 <= i < k ==> TakenAt(meticulous, w, ps, i)
    ensures var v := After(meticulous, w, ps[..k]);
            v.known && v.last == Carried(if k == 0 then start else ps[k - 1].n)
    decreases k
  {
    hide Takes, Moved, Carried, Stale, After, Highest;
    AfterNone(meticulous, w);
    if k == 0 {
      assert ps[..0] == [];
    } else {
      SteadyIsAccepted(meticulous, w, ps, start, k - 1);
      AfterNext(meticulous, w, ps, k);
      var v := After(meticulous, w, ps[..k - 1]);
      OneMore(meticulous, v, ps[k - 1].offer, ps[k - 1].n, if k == 1 then start else ps[k - 2].n);
    }
  }

  lemma AfterNone(meticulous: bool, w: Window)
    ensures After(meticulous, w, []) == w
  {
  }

  lemma OneMore(meticulous: bool, v: Window, o: Offer, n: nat, m: nat)
    requires v.known && !Stale(v, o) && v.last == Carried(m) && o.seqno == Carried(n) && o.digestOk
    requires 1 <= n - m <= Highest(o.mult)
    ensures Takes(meticulous, v, o) && Moved(meticulous, v, o) == Window(true, Carried(n), o.now)
  {
    hide Carried, InWindow;
    WindowIsTrue(meticulous, v, o, n, m);
  }
}
