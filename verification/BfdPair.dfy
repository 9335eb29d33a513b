/**
 Two BFD sessions facing each other over a network that may lose, repeat and reorder packets: the two-way
 handshake, what one answered poll settles, and the pace of packets.
 */
module BfdPair {
  import opened BfdSession
  import opened BfdPacket
  import opened BfdRuns

  /** A session, all it has ever sent, and the packets it has accepted. */
  datatype End = End(s: Sess, sent: set<Pkt>, taken: set<Pkt>)

  /** Any event, except that only what the other end has sent can arrive. */
  predicate EndCan(x: End, y: End, e: Event) {
    Can(x.s, e) && (e.Receive? || e.Refuse? ==> e.p in y.sent)
  }

  function EndStep(x: End, e: Event): End {
    End(Step(x.s, e), x.sent + (set p | p in Sent(x.s, e)), if e.Receive? then x.taken + {e.p} else x.taken)
  }

  datatype Pair = Pair(a: End, b: End)

  /** One end moves; the other stands still. */
  predicate PairStep(w: Pair, onA: bool, e: Event, w': Pair) {
    if onA then EndCan(w.a, w.b, e) && w' == Pair(EndStep(w.a, e), w.b)
    else EndCan(w.b, w.a, e) && w' == Pair(w.a, EndStep(w.b, e))
  }

  /** The packet's claim about the handshake is backed by packets that were really taken. */
  predicate Backed(p: Pkt, x: End, y: End) {
    && p.myDiscr == x.s.core.myDiscr
    && (p.yourDiscr == 0 || p.yourDiscr == y.s.core.myDiscr)
    && (Talking(p.state) ==> x.taken != {})
    && (p.state.Up? ==> y.taken != {})
  }

  predicate HalfDone(x: End, y: End) {
    && (x.s.core.remoteDiscr == 0 || x.s.core.remoteDiscr == y.s.core.myDiscr)
    && (Talking(x.s.core.state) ==> x.taken != {})
    && (x.s.core.state.Up? ==> y.taken != {})
    && x.taken <= y.sent
    && (forall p :: p in x.sent ==> Backed(p, x, y))
  }

  predicate Handshake(w: Pair) {
    HalfDone(w.a, w.b) && HalfDone(w.b, w.a)
  }

  /** What the state machine makes of a backed packet is itself backed. */
  predicate CoreBacked(c: Core, x: End, y: End) {
    && c.myDiscr == x.s.core.myDiscr
    && (c.remoteDiscr == 0 || c.remoteDiscr == y.s.core.myDiscr)
    && (Talking(c.state) ==> x.taken != {})
    && (c.state.Up? ==> y.taken != {})
  }

  lemma BuiltIsBacked(c: Core, final: bool, x: End, y: End)
    requires CoreBacked(c, x, y)
    ensures Backed(Built(c, final), x, y)
  {
  }

  lemma HeardIsBacked(x: End, y: End, p: Pkt)
    requires HalfDone(x, y) && Backed(p, y, x) && p in y.sent
    ensures var x' := x.(taken := x.taken + {p});
            && CoreBacked(SwitchedCore(Noted(x.s.core, p), p.state), x', y)
            && CoreBacked(HeardCore(x.s.core, p), x', y)
  {
    hide HalfDone, Backed;
    BackedFacts(x, y, p);
    assert p in x.taken + {p};
  }

  lemma BackedFacts(x: End, y: End, p: Pkt)
    requires HalfDone(x, y) && Backed(p, y, x)
    ensures p.myDiscr == y.s.core.myDiscr && (Talking(p.state) ==> y.taken != {})
    ensures x.s.core.state.Up? ==> y.taken != {}
  {
  }

  lemma HeardPacketsBacked(x: End, y: End, p: Pkt, q: Pkt)
    requires HalfDone(x, y) && Backed(p, y, x) && p in y.sent && q in HeardPackets(x.s.core, p)
    ensures Backed(q, x.(taken := x.taken + {p}), y)
  {
    hide HalfDone, Backed, CoreBacked, Built, SwitchedCore, HeardCore, Noted, GoesUp, GoesDown;
    HeardIsBacked(x, y, p);
    BuiltIsBacked(SwitchedCore(Noted(x.s.core, p), p.state), false, x.(taken := x.taken + {p}), y);
    BuiltIsBacked(HeardCore(x.s.core, p), true, x.(taken := x.taken + {p}), y);
  }

  /** The core after any other event: no state gained, no discriminator learned but the peer's. */
  lemma OtherIsBacked(x: End, y: End, e: Event)
    requires HalfDone(x, y) && EndCan(x, y, e) && !e.Receive? && (e.Refuse? ==> Backed(e.p, y, x))
    ensures CoreBacked(Step(x.s, e).core, x, y)
    ensures forall q :: q in Sent(x.s, e) ==> Backed(q, x, y)
  {
    hide SlowClock, Built, Backed;
    assert CoreBacked(x.s.core, x, y);
    if e.Refuse? {
      BackedFacts(x, y, e.p);
    } else if e.RecvTimeout? {
      BuiltIsBacked(DownCore(x.s.core, BD_CONTROL_EXPIRED), false, x, y);
    } else if e.XmtTimeout? {
      BuiltIsBacked(x.s.core, false, x, y);
    } else if e.SetShutdown? && e.on {
      BuiltIsBacked(WithShutdown(x.s, true).core, false, x, y);
    }
  }

  lemma StepCore(s: Sess, e: Event)
    ensures Step(s, e).core.myDiscr == s.core.myDiscr
    ensures e.Receive? ==> Step(s, e).core == HeardCore(s.core, e.p) && Sent(s, e) == HeardPackets(s.core, e.p)
  {
    hide HeardClock, HeardCore, HeardPackets, SlowClock, Packets;
    if e.Receive? {
      HeardKeeps(s.core, e.p);
    }
  }

  lemma MoverKeepsHalf(x: End, y: End, e: Event)
    requires HalfDone(x, y) && HalfDone(y, x) && EndCan(x, y, e)
    ensures HalfDone(EndStep(x, e), y)
  {
    hide Step, Sent, Can, Talking;
    var x' := EndStep(x, e);
    StepCore(x.s, e);
    if e.Receive? {
      HeardIsBacked(x, y, e.p);
      forall q | q in x'.sent
        ensures Backed(q, x', y)
      {
        if q !in x.sent {
          HeardPacketsBacked(x, y, e.p, q);
        } else {
          assert Backed(q, x, y);
        }
      }
    } else {
      OtherIsBacked(x, y, e);
    }
  }

  lemma OtherKeepsHalf(x: End, y: End, e: Event)
    requires HalfDone(y, x)
    ensures HalfDone(y, EndStep(x, e))
  {
    hide Step, Sent, Talking;
    StepCore(x.s, e);
    forall q | q in y.sent
      ensures Backed(q, y, EndStep(x, e))
    {
      assert Backed(q, y, x);
    }
  }

  lemma StepKeepsHandshake(w: Pair, onA: bool, e: Event, w': Pair)
    requires Handshake(w) && PairStep(w, onA, e, w')
    ensures Handshake(w')
  {
    hide EndStep, EndCan, HalfDone;
    if onA {
      MoverKeepsHalf(w.a, w.b, e);
      OtherKeepsHalf(w.a, w.b, e);
    } else {
      MoverKeepsHalf(w.b, w.a, e);
      OtherKeepsHalf(w.b, w.a, e);
    }
  }

  /** A run from two new sessions. */
  predicate PairRun(ws: seq<Pair>, moves: seq<(bool, Event)>) {
    && |ws| == |moves| + 1
    && (exists i, j :: i != 0 && j != 0 && ws[0] == Pair(End(Fresh(i), {}, {}), End(Fresh(j), {}, {})))
    && forall k :: 0 <= k < |moves| ==> PairStep(ws[k], moves[k].0, moves[k].1, ws[k + 1])
  }

  lemma {:induction false} RunKeepsHandshake(ws: seq<Pair>, moves: seq<(bool, Event)>, k: nat)
    requires PairRun(ws, moves) && k <= |moves|
    ensures Handshake(ws[k]) && Sound(ws[k].a.s) && Sound(ws[k].b.s)
  {
    hide PairStep, Step, Sent;
    if k > 0 {
      RunKeepsHandshake(ws, moves, k - 1);
      StepKeepsHandshake(ws[k - 1], moves[k - 1].0, moves[k - 1].1, ws[k]);
      StepKeepsSound(ws[k - 1], moves[k - 1].0, moves[k - 1].1, ws[k]);
    }
  }

  lemma StepKeepsSound(w: Pair, onA: bool, e: Event, w': Pair)
    requires Sound(w.a.s) && Sound(w.b.s) && PairStep(w, onA, e, w')
    ensures Sound(w'.a.s) && Sound(w'.b.s)
  {
    hide Sound, Step, Sent, Can;
    StepIsSound(if onA then w.a.s else w.b.s, e);
  }

  /**
   Two-way reachability: whenever either end is Up, each end has accepted a packet the other really sent, and
   the one that is Up addresses the other by its own discriminator.
   */
  lemma UpMeansBothHeard(ws: seq<Pair>, moves: seq<(bool, Event)>, k: nat)
    requires PairRun(ws, moves) && k <= |moves|
    requires ws[k].a.s.core.state.Up? || ws[k].b.s.core.state.Up?
    ensures exists p :: p in ws[k].a.taken && p in ws[k].b.sent
    ensures exists p :: p in ws[k].b.taken && p in ws[k].a.sent
    ensures ws[k].a.s.core.state.Up? ==> ws[k].a.s.core.remoteDiscr == ws[k].b.s.core.myDiscr
    ensures ws[k].b.s.core.state.Up? ==> ws[k].b.s.core.remoteDiscr == ws[k].a.s.core.myDiscr
  {
    RunKeepsHandshake(ws, moves, k);
    var a, b := ws[k].a, ws[k].b;
    assert a.taken != {} && b.taken != {};
    var p :| p in a.taken;
    var q :| q in b.taken;
    assert p in b.sent && q in a.sent;
  }

  // ---- Timers ----

  /** What a packet does between two ends that are both Up. */
  lemma HeardUp(s: Sess, p: Pkt)
    requires s.core.state.Up? && p.state.Up?
    ensures var t := Heard(s, p);
            var ended := s.core.polling && p.final;
            var fast := Max(s.core.timers.tx, p.timers.rx);
            var before := if ended then fast else s.clock.xmt;
            && t.core == Noted(s.core, p).(polling := s.core.polling && !p.final)
            && t.clock.cur == (if ended || p.poll then s.core.timers else s.clock.cur)
            && t.clock.detect == DetectionTime(p.mult, if ended then s.core.timers.rx else s.clock.cur.rx, p.timers.tx)
            && t.clock.xmt == (if !p.poll || (t.core.polling && fast > before) then before else fast)
  {
    hide DetectionTime, Max;
  }

  /** The interval between packets from x that suits both ends. */
  function Interval(x: Core, y: Core): u32 {
    Max(x.timers.tx, y.timers.rx)
  }

  /** x polls; y answers; x takes the answer. */
  function Asked(x: Sess, y: Sess): Sess {
    Heard(y, Built(x.core, false))
  }

  function Answered(x: Sess, y: Sess): Sess {
    Heard(x, Built(Asked(x, y).core, true))
  }

  /**
   A poll sequence: afterwards x allows y at least as long as y's own packets can take, and exactly that long
   unless y is holding back a longer interval until its own poll is answered.
   */
  lemma PollExchange(x: Sess, y: Sess)
    requires x.core.state.Up? && y.core.state.Up? && x.core.polling
    ensures var y1, x1 := Asked(x, y), Answered(x, y);
            && y1.core.state.Up? && x1.core.state.Up? && !x1.core.polling && y1.core.polling == y.core.polling
            && x1.core.timers == x.core.timers && y1.core.timers == y.core.timers
            && x1.core.mult == x.core.mult && y1.core.mult == y.core.mult
            && x1.clock.cur == x.core.timers && y1.clock.cur == y.core.timers
            && x1.clock.xmt == Interval(x.core, y.core)
            && x1.clock.detect == y.core.mult as int * Interval(y.core, x.core)
            && y1.clock.xmt <= Interval(y.core, x.core)
            && (y1.clock.xmt == Interval(y.core, x.core) <==>
                !(y.core.polling && y.clock.xmt < Interval(y.core, x.core)))
  {
    hide Heard, DetectionTime, Noted;
    var q := Built(x.core, false);
    HeardUp(y, q);
    NotedFacts(y.core, q);
    var y1 := Asked(x, y);
    var r := Built(y1.core, true);
    HeardUp(x, r);
    NotedFacts(x.core, r);
    DetectionIs(y.core.mult, x.core, y.core);
  }

  lemma NotedFacts(c: Core, p: Pkt)
    ensures var n := Noted(c, p);
            && n.state == c.state && n.timers == c.timers && n.mult == c.mult && n.polling == c.polling
  {
  }

  lemma DetectionIs(mult: u8, x: Core, y: Core)
    ensures DetectionTime(mult, x.timers.rx, y.timers.tx) == mult as int * Interval(y, x)
  {
  }

  /** Each end gives the other exactly its own multiple of the interval it really sends at. */
  predicate InStep(x: Sess, y: Sess) {
    && x.clock.detect == y.core.mult as int * y.clock.xmt
    && y.clock.detect == x.core.mult as int * x.clock.xmt
  }

  // ---- Pacing ----

  /**
   ptm_bfd_start_xmt_timer: three quarters of the interval and up, never above it, nine tenths if one loss is fatal.
   */
  function Jittered(xmt: nat, mult: u8, random: nat): nat {
    xmt * (75 + random % (if mult == 1 then 16 else 26)) / 100
  }

  lemma JitterStays(xmt: nat, mult: u8, random: nat)
    requires xmt <= 0xFFFF_FFFF
    ensures xmt * 3 / 4 <= Jittered(xmt, mult, random) <= xmt
    ensures mult == 1 ==> Jittered(xmt, mult, random) <= xmt * 9 / 10
    ensures xmt * (75 + random % (if mult == 1 then 16 else 26)) < 0x1_0000_0000_0000_0000
  {
    var k := random % (if mult == 1 then 16 else 26);
    ProductFits(xmt, 75, xmt, 75 + k);
    ProductFits(xmt, 75 + k, xmt, 100);
    if mult == 1 {
      ProductFits(xmt, 75 + k, xmt, 90);
    }
  }

  function Total(xmt: nat, mult: u8, randoms: seq<nat>): nat {
    if randoms == [] then 0 else Jittered(xmt, mult, randoms[0]) + Total(xmt, mult, randoms[1..])
  }

  lemma {:induction false} TotalBounded(xmt: nat, mult: u8, randoms: seq<nat>)
    requires xmt <= 0xFFFF_FFFF
    ensures Total(xmt, mult, randoms) <= |randoms| * xmt
  {
    if randoms != [] {
      JitterStays(xmt, mult, randoms[0]);
      TotalBounded(xmt, mult, randoms[1..]);
      assert |randoms| * xmt == xmt + |randoms[1..]| * xmt;
    }
  }

  /** In step, a whole multiplier's worth of packets leaves y within x's detection time, whatever the jitter. */
  lemma PeerStaysAlive(x: Sess, y: Sess, randoms: seq<nat>)
    requires Sound(x) && Sound(y) && InStep(x, y) && |randoms| == y.core.mult
    ensures Total(y.clock.xmt, y.core.mult, randoms) <= x.clock.detect
  {
    TotalBounded(y.clock.xmt, y.core.mult, randoms);
  }
}
