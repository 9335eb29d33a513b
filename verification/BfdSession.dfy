/**
 One BFD session, asynchronous and demand mode: the state machine of section 6.8.6 of RFC 5880, poll
 sequences, and the timers.  Each operation is given first in closed form, as a function from the state
 before to the state after and the packets sent; the class below carries out the same operations step by
 step on its fields.
 */
module BfdSession {
  type u8 = x: int | 0 <= x < 0x100
  type u32 = x: int | 0 <= x < 0x1_0000_0000

  const SLOW_TX: u32 := 1000000
  const DEFAULT_MULT: u8 := 3

  datatype SesState = AdminDown | Down | Init | Up

  /** Diagnostic codes. */
  const BD_OK: u8 := 0
  const BD_CONTROL_EXPIRED: u8 := 1
  const BD_NEIGHBOR_DOWN: u8 := 3
  const BD_PATH_DOWN: u8 := 5
  const BD_ADMIN_DOWN: u8 := 7

  datatype Timers = Timers(tx: u32, rx: u32)

  const SLOW := Timers(SLOW_TX, SLOW_TX)

  datatype Pkt = Pkt(state: SesState, poll: bool, final: bool, demand: bool, mult: u8,
                     myDiscr: u32, yourDiscr: u32, timers: Timers, diag: u8)

  /** What the session knows and has been told: everything that decides what it says. */
  datatype Core = Core(state: SesState, myDiscr: u32, remoteDiscr: u32, diag: u8, mult: u8, remoteMult: u8,
                       remoteState: SesState, remoteDemand: bool, timers: Timers, remote: Timers,
                       polling: bool, sock: bool, shutdown: bool, demand: bool, passive: bool)

  /** The intervals in force, the detection time, and which of the two timers is armed. */
  datatype Clock = Clock(cur: Timers, detect: nat, xmt: nat, recvArmed: bool, xmtArmed: bool)

  datatype Sess = Sess(core: Core, clock: Clock)

  function Max(a: u32, b: u32): u32 {
    if a > b then a else b
  }

  /** The detection time of section 6.8.4 of RFC 5880. */
  function DetectionTime(mult: u8, localRx: u32, remoteTx: u32): nat {
    mult as int * Max(localRx, remoteTx)
  }

  const SLOW_DETECT: nat := DEFAULT_MULT as int * SLOW_TX

  // ---- What is sent ----

  /** The packet built by a session: slow timers unless Up, and never both P and F. */
  function Built(c: Core, final: bool): Pkt {
    Pkt(c.state, !final && c.polling, final, c.demand && c.state.Up? && c.remoteState.Up?,
        c.mult, c.myDiscr, c.remoteDiscr,
        if c.state.Up? then c.timers else Timers(Max(c.timers.tx, SLOW_TX), Max(c.timers.rx, SLOW_TX)), c.diag)
  }

  /** Nothing leaves without a socket, nor from a passive session that has not heard its peer. */
  function Packets(c: Core, final: bool): seq<Pkt> {
    if !c.sock || (c.remoteDiscr == 0 && c.passive) then [] else [Built(c, final)]
  }

  // ---- The state machine ----

  predicate GoesUp(state: SesState, heard: SesState) {
    (state.Down? && heard.Init?) || (state.Init? && (heard.Init? || heard.Up?))
  }

  predicate GoesDown(state: SesState, heard: SesState) {
    (state.Init? && heard.AdminDown?) || (state.Up? && (heard.AdminDown? || heard.Down?))
  }

  /** A passive session that is spoken to answers at once. */
  predicate Wakes(c: Core, heard: SesState) {
    c.state.Down? && heard.Down? && c.passive
  }

  /** The state diagram of section 6.2 of RFC 5880. */
  function Next(state: SesState, heard: SesState): SesState {
    if GoesUp(state, heard) then Up
    else if GoesDown(state, heard) then Down
    else if state.Down? && heard.Down? then Init
    else state
  }

  /** Demand mode is in force and no poll is outstanding: there is nothing to time out. */
  predicate Quiet(c: Core) {
    c.demand && c.state.Up? && c.remoteState.Up? && !c.polling
  }

  predicate CanArm(c: Core) {
    c.sock && !c.shutdown
  }

  /** The transmission interval that both ends can live with. */
  function Agreed(c: Core): u32 {
    Max(c.timers.tx, c.remote.rx)
  }

  /** What a packet says about the peer, noted before anything is decided. */
  function Noted(c: Core, p: Pkt): Core {
    c.(remoteDiscr := p.myDiscr, remoteMult := p.mult, remoteState := p.state, remoteDemand := p.demand,
        remote := p.timers)
  }

  function DownCore(c: Core, diag: u8): Core {
    c.(diag := diag, remoteDiscr := 0, state := Down, polling := false, remoteState := AdminDown, remoteDemand := false)
  }

  function SlowClock(k: Clock, passive: bool): Clock {
    Clock(SLOW, SLOW_DETECT, SLOW_TX, k.recvArmed && !passive, k.xmtArmed && !passive)
  }

  /** The state machine's move once the packet is noted. */
  function SwitchedCore(c: Core, heard: SesState): Core {
    if GoesUp(c.state, heard) then c.(diag := BD_OK, state := Up, polling := true)
    else if GoesDown(c.state, heard) then DownCore(c, BD_NEIGHBOR_DOWN)
    else c.(state := Next(c.state, heard))
  }

  function SwitchedClock(c: Core, k: Clock, heard: SesState): Clock {
    if GoesUp(c.state, heard) then
      if c.demand && c.remoteState.Up? then k.(recvArmed := CanArm(c)) else k
    else if GoesDown(c.state, heard) then SlowClock(k, c.passive)
    else if Wakes(c, heard) then k.(xmtArmed := CanArm(c))
    else k
  }

  function SwitchPackets(c: Core, heard: SesState): seq<Pkt> {
    if GoesUp(c.state, heard) || GoesDown(c.state, heard) || Wakes(c, heard) then Packets(SwitchedCore(c, heard), false)
    else []
  }

  /** bs_final_handler: an increase of the transmission interval waits for our own poll to end. */
  function Settled(c: Core, k: Clock): Clock {
    if c.state.Up? && c.polling && Agreed(c) > k.xmt then k.(cur := c.timers)
    else k.(cur := c.timers, xmt := Agreed(c), xmtArmed := CanArm(c))
  }

  /** A packet with F set ends our poll. */
  function EndedCore(c: Core, final: bool): Core {
    c.(polling := c.polling && !final)
  }

  function EndedClock(c: Core, k: Clock, final: bool): Clock {
    if c.polling && final then Settled(EndedCore(c, final), k) else k
  }

  /** The detection timer is restarted with the new detection time, or stopped when there is nothing to time out. */
  function Watched(c: Core, k: Clock): Clock {
    k.(detect := DetectionTime(c.remoteMult, k.cur.rx, c.remote.tx), recvArmed := CanArm(c) && !Quiet(c))
  }

  /** The core after a packet that passed every check. */
  function HeardCore(c: Core, p: Pkt): Core {
    EndedCore(SwitchedCore(Noted(c, p), p.state), p.final)
  }

  /** What is configured or opened locally: a packet never touches it. */
  predicate SameSettings(c: Core, d: Core) {
    && c.myDiscr == d.myDiscr && c.mult == d.mult && c.timers == d.timers
    && c.sock == d.sock && c.shutdown == d.shutdown && c.demand == d.demand && c.passive == d.passive
  }

  lemma SwitchedKeeps(c: Core, heard: SesState)
    ensures var d := SwitchedCore(c, heard);
            && SameSettings(c, d) && d.state == Next(c.state, heard)
            && d.remoteMult == c.remoteMult && d.remote == c.remote
            && d.polling == (GoesUp(c.state, heard) || (c.polling && !GoesDown(c.state, heard)))
  {
    if GoesUp(c.state, heard) {
    } else if GoesDown(c.state, heard) {
    } else {
    }
  }

  /** A packet moves the state as the diagram says, and leaves every setting alone. */
  lemma HeardKeeps(c: Core, p: Pkt)
    ensures var d := HeardCore(c, p);
            && SameSettings(c, d) && d.state == Next(c.state, p.state) && d.remoteMult == p.mult && d.remote == p.timers
            && d.polling == ((GoesUp(c.state, p.state) || (c.polling && !GoesDown(c.state, p.state))) && !p.final)
  {
    hide SwitchedCore, GoesUp, GoesDown, Next;
    SwitchedKeeps(Noted(c, p), p.state);
  }

  function HeardClock(s: Sess, p: Pkt): Clock {
    var n := Noted(s.core, p);
    var k := EndedClock(SwitchedCore(n, p.state), SwitchedClock(n, s.clock, p.state), p.final);
    var w := Watched(HeardCore(s.core, p), k);
    if p.poll then Settled(HeardCore(s.core, p), w) else w
  }

  function Heard(s: Sess, p: Pkt): Sess {
    Sess(HeardCore(s.core, p), HeardClock(s, p))
  }

  function HeardPackets(c: Core, p: Pkt): seq<Pkt> {
    SwitchPackets(Noted(c, p), p.state) + if p.poll then Packets(HeardCore(c, p), true) else []
  }

  function WentDown(s: Sess, diag: u8): Sess {
    Sess(DownCore(s.core, diag), SlowClock(s.clock, s.core.passive))
  }

  /** The detection timer has fired and is no longer armed. */
  function TimedOut(s: Sess): Sess {
    var t := s.(clock := s.clock.(recvArmed := false));
    if s.core.state.Init? || s.core.state.Up? then WentDown(t, BD_CONTROL_EXPIRED)
    else if s.core.state.Down? then t.(core := s.core.(remoteDiscr := 0))
    else t
  }

  function TimedOutPackets(c: Core): seq<Pkt> {
    if c.state.Init? || c.state.Up? then Packets(DownCore(c, BD_CONTROL_EXPIRED), false) else []
  }

  /** Section 6.8.7 of RFC 5880: silence while the peer demands it and no poll is outstanding. */
  predicate Suppressed(c: Core) {
    c.remoteDemand && c.state.Up? && c.remoteState.Up? && !c.polling
  }

  function XmtPackets(c: Core, final: bool): seq<Pkt> {
    if Suppressed(c) && !final then [] else Packets(c, final)
  }

  function Polled(s: Sess): Sess {
    Sess(s.core.(polling := true),
         if s.core.demand && s.core.state.Up? && s.core.remoteState.Up? then s.clock.(recvArmed := CanArm(s.core))
         else s.clock)
  }

  function WithDemand(s: Sess, on: bool): Sess {
    var t := s.(core := s.core.(demand := on));
    if on == s.core.demand || !s.core.state.Up? || (on && !s.core.remoteState.Up?) then t
    else if on then Polled(t)
    else Sess(t.core.(polling := true), t.clock.(recvArmed := CanArm(s.core)))
  }

  function WithPassive(s: Sess, on: bool): Sess {
    var arm := !on && CanArm(s.core);
    Sess(s.core.(passive := on),
         if s.core.state.Down? then s.clock.(recvArmed := arm, xmtArmed := arm) else s.clock)
  }

  /** An Up session never counts as shut down, whatever its flag says. */
  predicate IsShutdown(c: Core) {
    !c.state.Up? && c.shutdown
  }

  function WithShutdown(s: Sess, on: bool): Sess {
    var c := s.core;
    if on == IsShutdown(c) then s
    else if on then
      Sess(c.(shutdown := true, diag := BD_ADMIN_DOWN, state := AdminDown),
           s.clock.(recvArmed := false, xmtArmed := false))
    else
      Sess(c.(shutdown := false, state := Down),
           s.clock.(recvArmed := !c.passive && c.sock, xmtArmed := !c.passive && c.sock))
  }

  /** Changed intervals are negotiated by a poll while the session is Up. */
  function WithTimers(s: Sess, mult: u8, timers: Timers): Sess {
    s.(core := s.core.(mult := mult, timers := timers))
  }

  lemma AppliedTimers(s: Sess, mult: u8, timers: Timers, demand: bool, passive: bool, shutdown: bool)
    ensures var t := WithShutdown(WithPassive(WithDemand(WithTimers(s, mult, timers), demand), passive), shutdown);
            t.core.timers == timers
  {
  }

  lemma ModesKeepState(s: Sess, demand: bool, passive: bool)
    ensures var c := WithPassive(WithDemand(s, demand), passive).core;
            c.state == s.core.state && c.shutdown == s.core.shutdown
  {
  }

  lemma ShutIsDown(s: Sess, on: bool)
    ensures on && !IsShutdown(s.core) ==> WithShutdown(s, on).core.state.AdminDown?
  {
  }

  function Applied(s: Sess, mult: u8, timers: Timers, demand: bool, passive: bool, shutdown: bool): Sess {
    var t := WithShutdown(WithPassive(WithDemand(WithTimers(s, mult, timers), demand), passive), shutdown);
    if t.core.state.Up? && timers != s.core.timers then Polled(t) else t
  }

  /** A socket has been opened; only an active session starts its timers. */
  function Enabled(s: Sess): Sess {
    var arm := !s.core.shutdown;
    Sess(s.core.(sock := true), if s.core.passive then s.clock else s.clock.(recvArmed := arm, xmtArmed := arm))
  }

  function Disabled(s: Sess): Sess {
    WentDown(Sess(s.core.(sock := false), s.clock.(recvArmed := false, xmtArmed := false)), BD_PATH_DOWN)
  }

  /** A new session with its discriminator. */
  function Fresh(discr: u32): Sess {
    Sess(Core(Down, discr, 0, BD_OK, DEFAULT_MULT, DEFAULT_MULT, AdminDown, false, Timers(300000, 300000), SLOW,
              false, false, false, false, false),
         Clock(SLOW, SLOW_DETECT, SLOW_TX, false, false))
  }

  // ---- The session object ----

  class Session {
    var core: Core
    var clock: Clock
    /** Packets handed to the socket, oldest first. */
    var sent: seq<Pkt>

    function View(): Sess
      reads this
    {
      Sess(core, clock)
    }

    constructor (discr: u32)
      ensures View() == Fresh(discr) && sent == []
    {
      core := Core(Down, discr, 0, BD_OK, DEFAULT_MULT, DEFAULT_MULT, AdminDown, false, Timers(300000, 300000), SLOW,
                   false, false, false, false, false);
      clock := Clock(SLOW, DEFAULT_MULT as int * SLOW_TX, SLOW_TX, false, false);
      sent := [];
    }

    // ---- Timers ----

    method RecvTimerUpdate()
      modifies this`clock
      ensures clock == old(clock).(recvArmed := CanArm(core))
    {
      clock := clock.(recvArmed := false);
      if core.shutdown || !core.sock {
        return;
      }
      clock := clock.(recvArmed := true);
    }

    method XmtTimerUpdate()
      modifies this`clock
      ensures clock == old(clock).(xmtArmed := CanArm(core))
    {
      clock := clock.(xmtArmed := false);
      if core.shutdown || !core.sock {
        return;
      }
      clock := clock.(xmtArmed := true);
    }

    method TimersDelete()
      modifies this`clock
      ensures clock == old(clock).(recvArmed := false, xmtArmed := false)
    {
      clock := clock.(recvArmed := false);
      clock := clock.(xmtArmed := false);
    }

    method SetSlowTimers()
      modifies this`clock
      ensures clock == old(clock).(cur := SLOW, detect := SLOW_DETECT, xmt := SLOW_TX)
    {
      clock := clock.(cur := Timers(SLOW_TX, SLOW_TX));
      clock := clock.(detect := DEFAULT_MULT as int * SLOW_TX);
      clock := clock.(xmt := SLOW_TX);
    }

    method FinalHandler()
      modifies this`clock
      ensures clock == Settled(core, old(clock))
    {
      var oldXmt := clock.xmt;
      clock := clock.(cur := core.timers);
      if core.timers.tx > core.remote.rx {
        clock := clock.(xmt := core.timers.tx);
      } else {
        clock := clock.(xmt := core.remote.rx);
      }
      if core.state.Up? && clock.xmt > oldXmt && core.polling {
        clock := clock.(xmt := oldXmt);
        return;
      }
      XmtTimerUpdate();
    }

    // ---- Transitions ----

    method Send(final: bool)
      modifies this`sent
      ensures sent == old(sent) + Packets(core, final)
    {
      if core.remoteDiscr == 0 && core.passive {
        return;
      }
      var poll := false;
      if !final {
        poll := core.polling;
      }
      var t := core.timers;
      if !core.state.Up? {
        t := Timers(if t.tx > SLOW_TX then t.tx else SLOW_TX, if t.rx > SLOW_TX then t.rx else SLOW_TX);
      }
      if core.sock {
        sent := sent + [Pkt(core.state, poll, final, core.demand && core.state.Up? && core.remoteState.Up?,
                            core.mult, core.myDiscr, core.remoteDiscr, t, core.diag)];
      }
    }

    method SetPolling()
      modifies this`core, this`clock
      ensures View() == Polled(old(View()))
    {
      core := core.(polling := true);
      if core.demand && core.state.Up? && core.remoteState.Up? {
        RecvTimerUpdate();
      }
    }

    method SessUp()
      modifies this
      ensures core == old(core).(diag := BD_OK, state := Up, polling := true)
      ensures clock == old(if core.demand && core.remoteState.Up? then clock.(recvArmed := CanArm(core)) else clock)
      ensures sent == old(sent) + Packets(core, false)
    {
      core := core.(diag := BD_OK);
      core := core.(state := Up);
      SetPolling();
      Send(false);
    }

    method SessDown(why: u8)
      modifies this
      ensures View() == WentDown(old(View()), why)
      ensures sent == old(sent) + Packets(core, false)
    {
      core := core.(diag := why);
      core := core.(remoteDiscr := 0);
      core := core.(state := Down);
      core := core.(polling := false);
      core := core.(remoteState := AdminDown);
      core := core.(remoteDemand := false);
      if core.sock {
        Send(false);
      }
      SetSlowTimers();
      if core.passive {
        TimersDelete();
      }
    }

    method XmtTimeout(final: bool)
      modifies this`sent, this`clock
      ensures clock == old(clock).(xmtArmed := CanArm(core))
      ensures sent == old(sent) + XmtPackets(core, final)
    {
      if core.remoteDemand && core.state.Up? && core.remoteState.Up? && !core.polling && !final {
        XmtTimerUpdate();
        return;
      }
      Send(final);
      XmtTimerUpdate();
    }

    method DownHandler(heard: SesState)
      requires core.state.Down?
      modifies this
      ensures core == SwitchedCore(old(core), heard)
      ensures clock == SwitchedClock(old(core), old(clock), heard)
      ensures sent == old(sent) + SwitchPackets(old(core), heard)
    {
      hide Built, Max;
      match heard {
        case AdminDown =>
        case Up =>
        case Down =>
          core := core.(state := Init);
          if core.passive {
            XmtTimeout(false);
          }
        case Init =>
          SessUp();
      }
    }

    method InitHandler(heard: SesState)
      requires core.state.Init?
      modifies this
      ensures core == SwitchedCore(old(core), heard)
      ensures clock == SwitchedClock(old(core), old(clock), heard)
      ensures sent == old(sent) + SwitchPackets(old(core), heard)
    {
      hide Built, Max, Packets, DownCore, SlowClock;
      match heard {
        case AdminDown => SessDown(BD_NEIGHBOR_DOWN);
        case Down =>
        case Init => SessUp();
        case Up => SessUp();
      }
    }

    method UpHandler(heard: SesState)
      requires core.state.Up?
      modifies this
      ensures core == SwitchedCore(old(core), heard)
      ensures clock == SwitchedClock(old(core), old(clock), heard)
      ensures sent == old(sent) + SwitchPackets(old(core), heard)
    {
      hide Built, Max, Packets, DownCore, SlowClock;
      match heard {
        case AdminDown => SessDown(BD_NEIGHBOR_DOWN);
        case Down => SessDown(BD_NEIGHBOR_DOWN);
        case Init =>
        case Up =>
      }
    }

    /** Dispatches on the local state; an administratively down session ignores its peer. */
    method StateHandler(heard: SesState)
      modifies this
      ensures core == SwitchedCore(old(core), heard)
      ensures clock == SwitchedClock(old(core), old(clock), heard)
      ensures sent == old(sent) + SwitchPackets(old(core), heard)
    {
      hide Built, Max, Packets, DownCore, SlowClock;
      match core.state {
        case AdminDown =>
        case Down => DownHandler(heard);
        case Init => InitHandler(heard);
        case Up => UpHandler(heard);
      }
    }

    /** Takes over what the packet says about the peer. */
    method Note(p: Pkt)
      modifies this`core
      ensures core == Noted(old(core), p)
    {
      core := core.(remoteDiscr := p.myDiscr);
      core := core.(remote := p.timers);
      core := core.(remoteMult := p.mult);
      core := core.(remoteState := p.state);
      core := core.(remoteDemand := p.demand);
    }

    /** Ends our poll when the peer has answered it. */
    method EndPoll(final: bool)
      modifies this`core, this`clock
      ensures core == EndedCore(old(core), final)
      ensures clock == EndedClock(old(core), old(clock), final)
    {
      hide Settled;
      if core.polling && final {
        core := core.(polling := false);
        FinalHandler();
      }
    }

    /** Restarts or stops the detection timer. */
    method Watch()
      modifies this`clock
      ensures clock == Watched(core, old(clock))
    {
      clock := clock.(detect := DetectionTime(core.remoteMult, clock.cur.rx, core.remote.tx));
      if !(core.demand && core.state.Up? && core.remoteState.Up? && !core.polling) {
        RecvTimerUpdate();
      } else {
        clock := clock.(recvArmed := false);
      }
    }

    /** What a control packet does from the point where it has passed every check. */
    method Receive(p: Pkt)
      modifies this
      ensures View() == Heard(old(View()), p)
      ensures sent == old(sent) + HeardPackets(old(core), p)
    {
      hide Packets, SwitchedCore, SwitchedClock, SwitchPackets, Settled, EndedCore, EndedClock, Watched, Noted;
      Note(p);
      StateHandler(p.state);
      EndPoll(p.final);
      Watch();
      if p.poll {
        FinalHandler();
        Send(true);
      }
    }

    method RecvTimeout()
      modifies this
      ensures View() == TimedOut(old(View()))
      ensures sent == old(sent) + TimedOutPackets(old(core))
    {
      clock := clock.(recvArmed := false);
      match core.state {
        case Init => SessDown(BD_CONTROL_EXPIRED);
        case Up => SessDown(BD_CONTROL_EXPIRED);
        case Down => core := core.(remoteDiscr := 0);
        case AdminDown =>
      }
    }

    // ---- Configuration ----

    method SetDemand(on: bool)
      modifies this`core, this`clock
      ensures View() == WithDemand(old(View()), on)
    {
      if on {
        if core.demand {
          return;
        }
        core := core.(demand := true);
        if core.state.Up? && core.remoteState.Up? {
          SetPolling();
        }
        return;
      }
      if !core.demand {
        return;
      }
      core := core.(demand := false);
      if !core.state.Up? {
        return;
      }
      SetPolling();
      RecvTimerUpdate();
    }

    method SetPassive(on: bool)
      modifies this`core, this`clock
      ensures View() == WithPassive(old(View()), on)
    {
      core := core.(passive := on);
      if !core.state.Down? {
        return;
      }
      if on {
        TimersDelete();
      } else {
        XmtTimerUpdate();
        RecvTimerUpdate();
      }
    }

    method SetShutdown(on: bool)
      modifies this
      ensures View() == WithShutdown(old(View()), on)
      ensures sent == old(sent) + if on && !IsShutdown(old(core)) then Packets(core, false) else []
    {
      var isShutdown := false;
      if !core.state.Up? {
        isShutdown := core.shutdown;
      }
      if on {
        if isShutdown {
          return;
        }
        core := core.(shutdown := true);
        core := core.(diag := BD_ADMIN_DOWN);
        TimersDelete();
        core := core.(state := AdminDown);
        if core.sock {
          Send(false);
        }
      } else {
        if !isShutdown {
          return;
        }
        core := core.(shutdown := false);
        core := core.(state := Down);
        if core.passive {
          TimersDelete();
        } else {
          RecvTimerUpdate();
          XmtTimerUpdate();
        }
      }
    }

    /** New configuration: multiplier and intervals, the three modes, then a poll if an interval changed while Up. */
    method Apply(mult: u8, timers: Timers, demand: bool, passive: bool, shutdown: bool)
      modifies this
      ensures View() == Applied(old(View()), mult, timers, demand, passive, shutdown)
      ensures sent == old(sent) + if shutdown && !IsShutdown(old(core)) then Packets(core, false) else []
    {
      hide Packets, WithShutdown, WithPassive, WithDemand, Polled;
      var was := core.timers;
      core := core.(mult := mult, timers := timers);
      SetDemand(demand);
      SetPassive(passive);
      ghost var moded := View();
      ModesKeepState(WithTimers(old(View()), mult, timers), demand, passive);
      SetShutdown(shutdown);
      ShutIsDown(moded, shutdown);
      AppliedTimers(old(View()), mult, timers, demand, passive, shutdown);
      if core.state.Up? && (core.timers.tx != was.tx || core.timers.rx != was.rx) {
        SetPolling();
      }
    }

    method Enable()
      requires !core.sock
      modifies this`core, this`clock
      ensures View() == Enabled(old(View()))
    {
      core := core.(sock := true);
      if !core.passive {
        RecvTimerUpdate();
        XmtTimerUpdate();
      }
    }

    method Disable()
      modifies this
      ensures View() == Disabled(old(View())) && sent == old(sent)
    {
      core := core.(sock := false);
      TimersDelete();
      SessDown(BD_PATH_DOWN);
    }
  }
}
