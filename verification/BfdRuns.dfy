/**
 Every sequence of events a BFD session can go through, and what holds in every state along the way.
 */
module BfdRuns {
  import opened Bytes
  import opened BfdSession
  import opened BfdPacket

  datatype Event =
    | Receive(p: Pkt)
    /** A packet that passed the header checks and failed authentication. */
    | Refuse(p: Pkt)
    | RecvTimeout
    | XmtTimeout
    | SetTimers(mult: u8, timers: Timers)
    | Poll
    | SetDemand(on: bool)
    | SetPassive(on: bool)
    | SetShutdown(on: bool)
    | Enable
    | Disable

  predicate Can(s: Sess, e: Event) {
    match e
    case Receive(p) => HeaderOk(p)
    case Refuse(p) => HeaderOk(p)
    case RecvTimeout => s.clock.recvArmed
    case XmtTimeout => s.clock.xmtArmed
    case SetTimers(mult, _) => mult != 0
    case Poll => s.core.state.Up?
    case Enable => !s.core.sock
    case _ => true
  }

  function Step(s: Sess, e: Event): Sess {
    match e
    case Receive(p) => Heard(s, p)
    case Refuse(p) => s.(core := s.core.(remoteDiscr := p.myDiscr))
    case RecvTimeout => TimedOut(s)
    case XmtTimeout => s.(clock := s.clock.(xmtArmed := CanArm(s.core)))
    case SetTimers(mult, timers) => WithTimers(s, mult, timers)
    case Poll => Polled(s)
    case SetDemand(on) => WithDemand(s, on)
    case SetPassive(on) => WithPassive(s, on)
    case SetShutdown(on) => WithShutdown(s, on)
    case Enable => Enabled(s)
    case Disable => Disabled(s)
  }

  /** The packets an event sends. */
  function Sent(s: Sess, e: Event): seq<Pkt> {
    match e
    case Receive(p) => HeardPackets(s.core, p)
    case RecvTimeout => TimedOutPackets(s.core)
    case XmtTimeout => XmtPackets(s.core, false)
    case SetShutdown(on) => if on && !IsShutdown(s.core) then Packets(WithShutdown(s, on).core, false) else []
    case _ => []
  }

  predicate Talking(state: SesState) {
    state.Init? || state.Up?
  }

  // ---- What every state keeps ----

  /**
   Failure detection: a live session has its detection timer armed exactly unless demand mode has silenced its peer.
   */
  predicate Watching(s: Sess) {
    Talking(s.core.state) && CanArm(s.core) ==> (s.clock.recvArmed <==> !Quiet(s.core))
  }

  /** What every packet the session builds relies on. */
  predicate Speaks(c: Core) {
    c.mult != 0 && c.myDiscr != 0 && c.diag < 32 && (Talking(c.state) ==> c.remoteDiscr != 0)
  }

  /** No timer runs without a socket or under shutdown, and the times fit their 64 bits. */
  predicate ClockSound(c: Core, k: Clock) {
    && (k.recvArmed || k.xmtArmed ==> CanArm(c))
    && k.detect <= 0xFF * 0xFFFF_FFFF && k.xmt <= 0xFFFF_FFFF
  }

  predicate Sound(s: Sess) {
    Speaks(s.core) && s.core.remoteMult != 0 && ClockSound(s.core, s.clock)
  }

  lemma FreshIsSound(discr: u32)
    requires discr != 0
    ensures Sound(Fresh(discr)) && Watching(Fresh(discr))
  {
  }

  lemma ProductFits(a: nat, b: nat, x: nat, y: nat)
    requires a <= x && b <= y
    ensures a * b <= x * y
  {
    assert a * b + (x - a) * b == x * b;
    assert x * b + x * (y - b) == x * y;
  }

  lemma DetectionFits(mult: u8, rx: u32, tx: u32)
    ensures DetectionTime(mult, rx, tx) <= 0xFF * 0xFFFF_FFFF
  {
    ProductFits(mult, Max(rx, tx), 0xFF, 0xFFFF_FFFF);
  }

  lemma SettledIsSound(c: Core, k: Clock)
    requires ClockSound(c, k)
    ensures ClockSound(c, Settled(c, k))
  {
  }

  lemma WatchedIsSound(c: Core, k: Clock)
    requires ClockSound(c, k)
    ensures ClockSound(c, Watched(c, k))
  {
    hide DetectionTime;
    DetectionFits(c.remoteMult, k.cur.rx, c.remote.tx);
  }

  lemma CanArmHeard(c: Core, p: Pkt)
    ensures CanArm(Noted(c, p)) == CanArm(c)
    ensures CanArm(SwitchedCore(Noted(c, p), p.state)) == CanArm(c)
    ensures CanArm(HeardCore(c, p)) == CanArm(c)
  {
  }

  lemma SwitchedIsSound(c: Core, k: Clock, heard: SesState)
    requires ClockSound(c, k)
    ensures ClockSound(c, SwitchedClock(c, k, heard))
  {
  }

  lemma HeardClockIsSound(s: Sess, p: Pkt)
    requires ClockSound(s.core, s.clock)
    ensures ClockSound(HeardCore(s.core, p), HeardClock(s, p))
  {
    hide CanArm, Noted, SwitchedCore, SwitchedClock, Settled, Watched, HeardCore;
    CanArmHeard(s.core, p);
    var n := Noted(s.core, p);
    SwitchedIsSound(n, s.clock, p.state);
    var m := SwitchedCore(n, p.state);
    var k := SwitchedClock(n, s.clock, p.state);
    HeardCoreIsEnded(s.core, p);
    SettledIsSound(HeardCore(s.core, p), k);
    var l := EndedClock(m, k, p.final);
    WatchedIsSound(HeardCore(s.core, p), l);
    SettledIsSound(HeardCore(s.core, p), Watched(HeardCore(s.core, p), l));
  }

  lemma HeardCoreIsEnded(c: Core, p: Pkt)
    ensures HeardCore(c, p) == EndedCore(SwitchedCore(Noted(c, p), p.state), p.final)
  {
  }

  lemma HeardSpeaks(c: Core, q: Pkt)
    requires Speaks(c) && HeaderOk(q)
    ensures Speaks(SwitchedCore(Noted(c, q), q.state)) && Speaks(HeardCore(c, q))
    ensures HeardCore(c, q).remoteMult == q.mult
  {
  }

  lemma HeardIsSound(s: Sess, p: Pkt)
    requires Sound(s) && HeaderOk(p)
    ensures Sound(Heard(s, p))
  {
    hide HeardCore, HeardClock, Speaks, ClockSound;
    HeardSpeaks(s.core, p);
    HeardClockIsSound(s, p);
  }

  lemma StepIsSound(s: Sess, e: Event)
    requires Sound(s) && Can(s, e)
    ensures Sound(Step(s, e))
  {
    hide DetectionTime, HeardClock, HeardCore;
    if e.Receive? {
      HeardIsSound(s, e.p);
    }
  }

  /** When opening the socket leaves detection right: the timers it starts, or does not, are the ones called for. */
  predicate MayEnable(c: Core) {
    Talking(c.state) && !c.shutdown ==> (c.passive <==> Quiet(c))
  }

  lemma EnableWatches(s: Sess)
    requires Sound(s) && !s.core.sock
    ensures Watching(Enabled(s)) <==> MayEnable(s.core)
  {
  }

  lemma StepWatches(s: Sess, e: Event)
    requires Sound(s) && Watching(s) && Can(s, e) && (e.Enable? ==> MayEnable(s.core))
    ensures Watching(Step(s, e))
  {
    hide DetectionTime, Agreed;
    if e.Enable? {
      EnableWatches(s);
    }
  }

  // ---- Runs ----

  function After(s: Sess, es: seq<Event>): Sess {
    if es == [] then s else Step(After(s, es[..|es| - 1]), es[|es| - 1])
  }

  /** Each event was possible when it happened. */
  predicate Possible(s: Sess, es: seq<Event>) {
    forall i :: 0 <= i < |es| ==> Can(After(s, es[..i]), es[i])
  }

  predicate EnablesWell(s: Sess, es: seq<Event>) {
    forall i :: 0 <= i < |es| && es[i].Enable? ==> MayEnable(After(s, es[..i]).core)
  }

  lemma Prefixes(s: Sess, es: seq<Event>)
    requires es != [] && Possible(s, es)
    ensures var n := |es| - 1;
            && Possible(s, es[..n]) && Can(After(s, es[..n]), es[n])
            && (EnablesWell(s, es) ==> EnablesWell(s, es[..n]) && (es[n].Enable? ==> MayEnable(After(s, es[..n]).core)))
  {
    hide Can, MayEnable, Step;
    var n := |es| - 1;
    forall i | 0 <= i < n
      ensures es[..n][..i] == es[..i] && es[..n][i] == es[i]
    {
    }
  }

  lemma {:induction false} RunIsSound(s: Sess, es: seq<Event>)
    requires Sound(s) && Possible(s, es)
    ensures Sound(After(s, es))
    decreases |es|
  {
    hide Sound, Can, Step, MayEnable, Possible, EnablesWell;
    if es != [] {
      Prefixes(s, es);
      RunIsSound(s, es[..|es| - 1]);
      StepIsSound(After(s, es[..|es| - 1]), es[|es| - 1]);
    }
  }

  /** In every state of every run the detection timer is armed exactly when it should be. */
  lemma {:induction false} RunWatches(s: Sess, es: seq<Event>)
    requires Sound(s) && Watching(s) && Possible(s, es) && EnablesWell(s, es)
    ensures Sound(After(s, es)) && Watching(After(s, es))
    decreases |es|
  {
    hide Sound, Watching, Can, Step, MayEnable, Possible, EnablesWell;
    if es != [] {
      Prefixes(s, es);
      RunWatches(s, es[..|es| - 1]);
      StepIsSound(After(s, es[..|es| - 1]), es[|es| - 1]);
      StepWatches(After(s, es[..|es| - 1]), es[|es| - 1]);
    }
  }

  /** Packets reach a session only while it has its own socket. */
  predicate HearsOpen(s: Sess, es: seq<Event>) {
    forall i :: 0 <= i < |es| && es[i].Receive? ==> After(s, es[..i]).core.sock
  }

  predicate ClosedIsSilent(s: Sess) {
    !s.core.sock ==> !Talking(s.core.state)
  }

  lemma StepStaysSilent(s: Sess, e: Event)
    requires ClosedIsSilent(s) && (e.Receive? ==> s.core.sock)
    ensures ClosedIsSilent(Step(s, e))
  {
    hide HeardClock, SlowClock;
  }

  lemma {:induction false} RunStaysSilent(s: Sess, es: seq<Event>)
    requires ClosedIsSilent(s) && HearsOpen(s, es)
    ensures ClosedIsSilent(After(s, es))
    decreases |es|
  {
    hide Step, ClosedIsSilent;
    if es != [] {
      var n := |es| - 1;
      forall i | 0 <= i < n
        ensures es[..n][..i] == es[..i] && es[..n][i] == es[i]
      {
      }
      RunStaysSilent(s, es[..n]);
      StepStaysSilent(After(s, es[..n]), es[n]);
    }
  }

  /** If packets are heard only through an open socket, every opening is harmless. */
  lemma HearsOpenEnablesWell(s: Sess, es: seq<Event>)
    requires ClosedIsSilent(s) && Possible(s, es) && HearsOpen(s, es)
    ensures EnablesWell(s, es)
  {
    hide Step, After;
    forall i | 0 <= i < |es| && es[i].Enable?
      ensures MayEnable(After(s, es[..i]).core)
    {
      forall j | 0 <= j < i
        ensures es[..i][..j] == es[..j] && es[..i][j] == es[j]
      {
      }
      RunStaysSilent(s, es[..i]);
    }
  }

  /** Section 6.8.4 of RFC 5880 over whole runs of a new session. */
  lemma DetectionNeverLapses(discr: u32, es: seq<Event>)
    requires discr != 0 && Possible(Fresh(discr), es) && HearsOpen(Fresh(discr), es)
    ensures Watching(After(Fresh(discr), es))
  {
    hide After, Possible, EnablesWell, HearsOpen, Watching;
    FreshIsSound(discr);
    HearsOpenEnablesWell(Fresh(discr), es);
    RunWatches(Fresh(discr), es);
  }

  /**
   A passive session spoken to while its socket is closed goes to Init, and opening the socket leaves it unwatched.
   */
  lemma UnwatchedSession(p: Pkt)
    requires HeaderOk(p) && p.state.Down? && p.yourDiscr == 0 && !p.final && !p.poll
    ensures var s := Step(Step(Step(Fresh(1), SetPassive(true)), Receive(p)), Enable);
            && s.core.state.Init? && CanArm(s.core) && !Quiet(s.core)
            && !s.clock.recvArmed && !s.clock.xmtArmed
  {
  }

  // ---- Packets ----

  lemma BuiltIsAcceptable(c: Core, final: bool)
    requires Speaks(c)
    ensures Acceptable(Built(c, final))
  {
  }

  predicate Acceptable(p: Pkt) {
    HeaderOk(p) && p.diag < 32 && !(p.poll && p.final) && (p.demand ==> p.state.Up?)
  }

  lemma SentIsAcceptable(s: Sess, e: Event, p: Pkt)
    requires Sound(s) && Can(s, e) && p in Sent(s, e)
    ensures Acceptable(p)
  {
    hide HeardClock;
    match e {
      case Receive(q) =>
        HeardPacketsAcceptable(s.core, q, p);
      case RecvTimeout =>
        BuiltIsAcceptable(DownCore(s.core, BD_CONTROL_EXPIRED), false);
      case XmtTimeout =>
        BuiltIsAcceptable(s.core, false);
      case SetShutdown(on) =>
        BuiltIsAcceptable(WithShutdown(s, on).core, false);
      case _ =>
    }
  }

  lemma HeardPacketsAcceptable(c: Core, q: Pkt, p: Pkt)
    requires Speaks(c) && HeaderOk(q) && p in HeardPackets(c, q)
    ensures Acceptable(p)
  {
    hide Built, SwitchedCore, HeardCore, Noted, Acceptable, HeaderOk, GoesUp, GoesDown, Speaks;
    HeardSpeaks(c, q);
    BuiltIsAcceptable(SwitchedCore(Noted(c, q), q.state), false);
    BuiltIsAcceptable(HeardCore(c, q), true);
    assert p == Built(SwitchedCore(Noted(c, q), q.state), false) || p == Built(HeardCore(c, q), true);
  }

  /** Whatever a session sends in any run passes every check of its peer, and arrives as it was meant. */
  lemma EveryPacketIsAccepted(discr: u32, es: seq<Event>, e: Event, p: Pkt, cbit: bool, echo: u32)
    requires discr != 0 && Possible(Fresh(discr), es) && Can(After(Fresh(discr), es), e)
    requires p in Sent(After(Fresh(discr), es), e)
    ensures p.diag < 32 && Examine(Wire(p, cbit, echo)) == Accepted(p)
    ensures !(p.poll && p.final) && (p.demand ==> p.state.Up?)
  {
    hide After, Sent, Can, Possible, Sound, Examine, Wire;
    FreshIsSound(discr);
    RunIsSound(Fresh(discr), es);
    SentIsAcceptable(After(Fresh(discr), es), e, p);
    WireRoundTrip(p, cbit, echo);
  }

  // ---- Administrative shutdown ----

  /** A session under administrative shutdown is AdminDown. */
  predicate ShutIsDown(c: Core) {
    c.shutdown ==> c.state.AdminDown?
  }

  /** Shutdown holds through every event except losing the socket, which it never survives. */
  lemma ShutdownHolds(s: Sess, e: Event)
    requires ShutIsDown(s.core) && Can(s, e)
    ensures ShutIsDown(Step(s, e).core) <==> !(e.Disable? && s.core.shutdown)
  {
    hide HeardClock, SlowClock;
  }

  /** No packet takes a session out of AdminDown. */
  lemma AdminDownIgnoresPeer(s: Sess, p: Pkt)
    requires s.core.state.AdminDown?
    ensures Heard(s, p).core.state.AdminDown? && SwitchPackets(Noted(s.core, p), p.state) == []
  {
  }

  /**
   A passive session that is shut down, then loses and regains its interface, comes Up when its peer asks;
   lifting the shutdown is then taken for a change already made, and detection stays off.
   */
  lemma ShutdownIsForgotten(p: Pkt, q: Pkt)
    requires HeaderOk(p) && HeaderOk(q) && p.state.Down? && q.state.Up?
    ensures var shut := Step(Step(Fresh(1), SetPassive(true)), SetShutdown(true));
            var back := Step(Step(Step(shut, Enable), Disable), Enable);
            var s := Step(Step(back, Receive(p)), Receive(q));
            && shut.core.state.AdminDown?
            && s.core.state.Up? && s.core.shutdown && s.core.sock && !s.clock.recvArmed
            && Step(s, SetShutdown(false)) == s
  {
    hide HeardCore, HeardClock;
    var shut := Step(Step(Fresh(1), SetPassive(true)), SetShutdown(true));
    var back := Step(Step(Step(shut, Enable), Disable), Enable);
    HeardWhileShut(back, p);
    HeardWhileShut(Heard(back, p), q);
  }

  lemma HeardWhileShut(s: Sess, p: Pkt)
    requires s.core.shutdown && s.core.sock
    ensures var t := Heard(s, p);
            t.core.shutdown && t.core.sock && !t.clock.recvArmed && t.core.state == Next(s.core.state, p.state)
  {
  }

  lemma Extend(s: Sess, es: seq<Event>, e: Event)
    requires Possible(s, es) && EnablesWell(s, es) && Can(After(s, es), e) && !e.Enable?
    ensures Possible(s, es + [e]) && EnablesWell(s, es + [e]) && After(s, es + [e]) == Step(After(s, es), e)
  {
    hide Can, Step, MayEnable;
    var fs := es + [e];
    assert fs[..|es|] == es;
    forall i | 0 <= i < |es|
      ensures fs[..i] == es[..i] && fs[i] == es[i]
    {
    }
  }

  /** New configuration is a run of single changes. */
  lemma AppliedIsRun(s: Sess, mult: u8, timers: Timers, demand: bool, passive: bool, shutdown: bool)
    requires mult != 0
    ensures exists es ::
              && Possible(s, es) && EnablesWell(s, es)
              && After(s, es) == Applied(s, mult, timers, demand, passive, shutdown)
  {
    hide WithTimers, WithDemand, WithPassive, WithShutdown, Polled, After, Possible, EnablesWell;
    Nothing(s);
    var es := [SetTimers(mult, timers)];
    assert [] + es == es;
    Extend(s, [], es[0]);
    Extend(s, es, SetDemand(demand));
    es := es + [SetDemand(demand)];
    Extend(s, es, SetPassive(passive));
    es := es + [SetPassive(passive)];
    Extend(s, es, SetShutdown(shutdown));
    es := es + [SetShutdown(shutdown)];
    if After(s, es).core.state.Up? && timers != s.core.timers {
      Extend(s, es, Poll);
      es := es + [Poll];
    }
    assert After(s, es) == Applied(s, mult, timers, demand, passive, shutdown);
  }

  lemma Nothing(s: Sess)
    ensures Possible(s, []) && EnablesWell(s, []) && After(s, []) == s
  {
  }
}
