/**
 When two BFD sessions agree on timers: each end's detection time is the other's multiplier times the interval the
 other really sends at.  Stated over every interleaving of the two ends and every loss, repetition and reordering.
 */
module BfdAgreement {
  import opened BfdSession
  import opened BfdPacket
  import opened BfdRuns
  import opened BfdPair

  /** A packet that carries the present settings of a session that is Up. */
  predicate Current(p: Pkt, y: Core) {
    p.state.Up? && p.timers == y.timers && p.mult == y.mult
  }

  /** x sends at the interval that suits both. */
  predicate Tuned(x: Sess, y: Core) {
    x.clock.cur == x.core.timers && x.clock.xmt == Interval(x.core, y)
  }

  /** And waits for y as long as y's multiplier of y's own interval. */
  predicate AtRest(x: Sess, y: Core) {
    Tuned(x, y) && x.clock.detect == y.mult as int * Interval(y, x.core)
  }

  lemma RestIsAgreement(x: Sess, y: Sess)
    requires AtRest(x, y.core) && AtRest(y, x.core)
    ensures InStep(x, y)
  {
  }

  // ---- One packet ----

  lemma HeardSettings(s: Sess, p: Pkt)
    requires s.core.state.Up? && p.state.Up?
    ensures var t := Heard(s, p).core;
            && t.state.Up? && t.timers == s.core.timers && t.mult == s.core.mult
            && t.polling == (s.core.polling && !p.final)
  {
    hide Heard, Noted;
    HeardUp(s, p);
    NotedFacts(s.core, p);
  }

  lemma IntervalBySettings(x: Core, x': Core, y: Core)
    requires x'.timers == x.timers
    ensures Interval(x', y) == Interval(x, y) && Interval(y, x') == Interval(y, x)
  {
  }

  /** A Final that ends a poll settles its receiver. */
  lemma FinalSettles(x: Sess, y: Core, f: Pkt)
    requires x.core.state.Up? && x.core.polling && Current(f, y) && f.final
    ensures AtRest(Heard(x, f), y)
  {
    hide Heard, Noted, DetectionTime, Max, Interval;
    HeardUp(x, f);
    HeardSettings(x, f);
    IntervalBySettings(x.core, Heard(x, f).core, y);
    IntervalIs(x.core, y, f);
  }

  lemma IntervalIs(x: Core, y: Core, p: Pkt)
    requires p.timers == y.timers
    ensures Max(x.timers.tx, p.timers.rx) == Interval(x, y)
    ensures forall m: u8 :: DetectionTime(m, x.timers.rx, p.timers.tx) == m as int * Interval(y, x)
  {
  }

  /** A Poll tunes its receiver, unless that is withholding a longer interval until its own poll is answered. */
  lemma PollTunes(x: Sess, y: Core, q: Pkt)
    requires x.core.state.Up? && Current(q, y) && q.poll
    ensures Tuned(Heard(x, q), y) <==> q.final || !(x.core.polling && x.clock.xmt < Interval(x.core, y))
  {
    hide Heard, Noted, DetectionTime, Max, Interval;
    HeardUp(x, q);
    HeardSettings(x, q);
    IntervalBySettings(x.core, Heard(x, q).core, y);
    IntervalIs(x.core, y, q);
  }

  /** Any packet settles an end that is tuned, and leaves a settled one settled. */
  lemma PacketSettles(x: Sess, y: Core, p: Pkt)
    requires x.core.state.Up? && Current(p, y) && Tuned(x, y)
    ensures AtRest(Heard(x, p), y)
  {
    hide Heard, Noted, DetectionTime, Max, Interval;
    HeardUp(x, p);
    HeardSettings(x, p);
    IntervalBySettings(x.core, Heard(x, p).core, y);
    IntervalIs(x.core, y, p);
  }

  // ---- One step ----

  predicate SameSetting(x: Core, x': Core) {
    x'.timers == x.timers && x'.mult == x.mult
  }

  lemma OtherKeepsClock(s: Sess, e: Event)
    requires s.core.state.Up? && Step(s, e).core.state.Up? && !e.Receive?
    ensures var k, k' := s.clock, Step(s, e).clock;
            k'.cur == k.cur && k'.xmt == k.xmt && k'.detect == k.detect
  {
    hide SlowClock, HeardCore, HeardClock, CanArm;
    match e
    case SetDemand(on) => {
      hide TimedOut, WithPassive, WithShutdown, Disabled;
    }
    case _ => {
      hide WithDemand;
    }
  }

  lemma StepKeepsRest(x: Sess, y: Core, e: Event)
    requires x.core.state.Up? && Step(x, e).core.state.Up? && SameSetting(x.core, Step(x, e).core)
    requires e.Receive? ==> Current(e.p, y)
    ensures Tuned(x, y) ==> Tuned(Step(x, e), y) && (e.Receive? ==> AtRest(Step(x, e), y))
    ensures AtRest(x, y) ==> AtRest(Step(x, e), y)
  {
    hide Heard, Interval;
    IntervalBySettings(x.core, Step(x, e).core, y);
    if e.Receive? {
      if Tuned(x, y) {
        PacketSettles(x, y, e.p);
      }
    } else {
      hide Step;
      OtherKeepsClock(x, e);
    }
  }

  // ---- Stretches of a run ----

  function Mine(w: Pair, onA: bool): End {
    if onA then w.a else w.b
  }

  /** Steps of the two ends from any state. */
  predicate Steps(ws: seq<Pair>, moves: seq<(bool, Event)>) {
    |ws| == |moves| + 1 && forall k | 0 <= k < |moves| :: PairStep(ws[k], moves[k].0, moves[k].1, ws[k + 1])
  }

  predicate CalmAt(w: Pair, w0: Pair) {
    && w.a.s.core.state.Up? && w.b.s.core.state.Up?
    && SameSetting(w0.a.s.core, w.a.s.core) && SameSetting(w0.b.s.core, w.b.s.core)
  }

  /** Both ends stay Up and nobody changes a setting. */
  predicate Calm(ws: seq<Pair>) {
    ws != [] && forall k | 0 <= k < |ws| :: CalmAt(ws[k], ws[0])
  }

  predicate Hears(moves: seq<(bool, Event)>, onA: bool, k: nat) {
    k < |moves| && moves[k].0 == onA && moves[k].1.Receive?
  }

  /** From move i on, an end takes only packets that carry the other's present settings. */
  predicate HearsCurrent(ws: seq<Pair>, moves: seq<(bool, Event)>, onA: bool, i: nat)
    requires |ws| == |moves| + 1
  {
    forall k | i <= k < |moves| && Hears(moves, onA, k) :: Current(moves[k].1.p, Mine(ws[k], !onA).s.core)
  }

  /** The poll of one end is answered at move i. */
  predicate PollAnswered(ws: seq<Pair>, moves: seq<(bool, Event)>, onA: bool, i: nat)
    requires |ws| == |moves| + 1
  {
    Hears(moves, onA, i) && moves[i].1.p.final && Mine(ws[i], onA).s.core.polling
  }

  lemma StepOf(ws: seq<Pair>, moves: seq<(bool, Event)>, onA: bool, k: nat)
    requires Steps(ws, moves) && Calm(ws) && k < |moves|
    ensures var x, x' := Mine(ws[k], onA).s, Mine(ws[k + 1], onA).s;
            && x.core.state.Up? && x'.core.state.Up? && SameSetting(x.core, x'.core)
            && (if moves[k].0 == onA then x' == Step(x, moves[k].1) && Can(x, moves[k].1) else x' == x)
  {
    hide Step, Sent, Can;
    assert PairStep(ws[k], moves[k].0, moves[k].1, ws[k + 1]);
    assert CalmAt(ws[k], ws[0]) && CalmAt(ws[k + 1], ws[0]);
  }

  lemma RestBySettings(x: Sess, y: Core, y': Core)
    requires SameSetting(y, y')
    ensures (Tuned(x, y) <==> Tuned(x, y')) && (AtRest(x, y) <==> AtRest(x, y'))
  {
    hide Interval;
    IntervalBySettings(y, y', x.core);
  }

  /** Once settled, an end that hears only current packets stays so. */
  lemma {:induction false} RestLasts(ws: seq<Pair>, moves: seq<(bool, Event)>, onA: bool, i: nat, k: nat)
    requires Steps(ws, moves) && Calm(ws) && i <= k < |ws| && HearsCurrent(ws, moves, onA, i)
    ensures Tuned(Mine(ws[i], onA).s, Mine(ws[i], !onA).s.core) ==> Tuned(Mine(ws[k], onA).s, Mine(ws[k], !onA).s.core)
    ensures AtRest(Mine(ws[i], onA).s, Mine(ws[i], !onA).s.core) ==>
            AtRest(Mine(ws[k], onA).s, Mine(ws[k], !onA).s.core)
    decreases k
  {
    hide Step, Sent, PairStep, Calm, Tuned, AtRest, Mine;
    if i < k {
      RestLasts(ws, moves, onA, i, k - 1);
      StepOf(ws, moves, onA, k - 1);
      StepOf(ws, moves, !onA, k - 1);
      var x, y, y' := Mine(ws[k - 1], onA).s, Mine(ws[k - 1], !onA).s.core, Mine(ws[k], !onA).s.core;
      if moves[k - 1].0 == onA {
        assert moves[k - 1].1.Receive? ==> Hears(moves, onA, k - 1);
        StepKeepsRest(x, y, moves[k - 1].1);
      }
      RestBySettings(Mine(ws[k], onA).s, y, y');
    }
  }

  /** An answered poll settles its end for the rest of the stretch. */
  lemma RestsAfterFinal(ws: seq<Pair>, moves: seq<(bool, Event)>, onA: bool, i: nat, k: nat)
    requires Steps(ws, moves) && Calm(ws) && HearsCurrent(ws, moves, onA, i)
    requires PollAnswered(ws, moves, onA, i) && i < k < |ws|
    ensures AtRest(Mine(ws[k], onA).s, Mine(ws[k], !onA).s.core)
  {
    hide Sent, PairStep, Calm, AtRest, Mine, Heard;
    StepOf(ws, moves, onA, i);
    StepOf(ws, moves, !onA, i);
    FinalSettles(Mine(ws[i], onA).s, Mine(ws[i], !onA).s.core, moves[i].1.p);
    RestBySettings(Mine(ws[i + 1], onA).s, Mine(ws[i], !onA).s.core, Mine(ws[i + 1], !onA).s.core);
    assert HearsCurrent(ws, moves, onA, i + 1);
    RestLasts(ws, moves, onA, i + 1, k);
  }

  /** So does a poll that was heard and not held against, once any other packet has followed. */
  lemma RestsAfterPoll(ws: seq<Pair>, moves: seq<(bool, Event)>, onA: bool, i: nat, j: nat, k: nat)
    requires Steps(ws, moves) && Calm(ws) && HearsCurrent(ws, moves, onA, i)
    requires Hears(moves, onA, i) && moves[i].1.p.poll && Hears(moves, onA, j) && i < j < k < |ws|
    requires var x, y := Mine(ws[i], onA).s, Mine(ws[i], !onA).s.core;
             !(x.core.polling && x.clock.xmt < Interval(x.core, y))
    ensures AtRest(Mine(ws[k], onA).s, Mine(ws[k], !onA).s.core)
  {
    hide Sent, PairStep, Calm, AtRest, Tuned, Mine, Heard, Interval;
    StepOf(ws, moves, onA, i);
    StepOf(ws, moves, !onA, i);
    PollTunes(Mine(ws[i], onA).s, Mine(ws[i], !onA).s.core, moves[i].1.p);
    RestBySettings(Mine(ws[i + 1], onA).s, Mine(ws[i], !onA).s.core, Mine(ws[i + 1], !onA).s.core);
    assert HearsCurrent(ws, moves, onA, i + 1) && HearsCurrent(ws, moves, onA, j + 1);
    RestLasts(ws, moves, onA, i + 1, j);
    StepOf(ws, moves, onA, j);
    StepOf(ws, moves, !onA, j);
    StepKeepsRest(Mine(ws[j], onA).s, Mine(ws[j], !onA).s.core, moves[j].1);
    RestBySettings(Mine(ws[j + 1], onA).s, Mine(ws[j], !onA).s.core, Mine(ws[j + 1], !onA).s.core);
    RestLasts(ws, moves, onA, j + 1, k);
  }

  /** One end is settled at some move of the stretch, by an answered poll or by having heard one. */
  predicate Settling(ws: seq<Pair>, moves: seq<(bool, Event)>, onA: bool, i: nat, j: nat)
    requires |ws| == |moves| + 1
  {
    && i <= j && HearsCurrent(ws, moves, onA, i)
    && (|| (i == j && PollAnswered(ws, moves, onA, i))
        || (&& i < j && Hears(moves, onA, i) && moves[i].1.p.poll && Hears(moves, onA, j)
            && var x, y := Mine(ws[i], onA).s, Mine(ws[i], !onA).s.core;
               !(x.core.polling && x.clock.xmt < Interval(x.core, y))))
  }

  /** Agreement: in whatever order the packets of the two ends cross, once both are settled they agree, and go on to. */
  lemma Agreement(ws: seq<Pair>, moves: seq<(bool, Event)>, i: nat, j: nat, i': nat, j': nat, k: nat)
    requires Steps(ws, moves) && Calm(ws) && j < k < |ws| && j' < k
    requires Settling(ws, moves, true, i, j) && Settling(ws, moves, false, i', j')
    ensures InStep(ws[k].a.s, ws[k].b.s)
  {
    hide PairStep, Calm, AtRest, HearsCurrent, InStep;
    if i == j {
      RestsAfterFinal(ws, moves, true, i, k);
    } else {
      RestsAfterPoll(ws, moves, true, i, j, k);
    }
    if i' == j' {
      RestsAfterFinal(ws, moves, false, i', k);
    } else {
      RestsAfterPoll(ws, moves, false, i', j', k);
    }
    RestIsAgreement(ws[k].a.s, ws[k].b.s);
  }

  // ---- What is sent in a stretch ----

  /** What an end sends while it is Up and stays so carries its settings; a Final answers a poll just taken. */
  lemma SentIsCurrent(s: Sess, e: Event, p: Pkt)
    requires s.core.state.Up? && Step(s, e).core.state.Up? && SameSetting(s.core, Step(s, e).core) && p in Sent(s, e)
    ensures Current(p, s.core)
    ensures p.final ==> e.Receive? && e.p.poll
  {
    hide HeardClock, SlowClock;
    if e.Receive? {
      HeardKeeps(s.core, e.p);
    }
  }

  /** The packet was sent in the stretch, at an earlier move of the other end. */
  predicate SentWithin(ws: seq<Pair>, moves: seq<(bool, Event)>, onA: bool, p: Pkt, h: nat)
    requires |ws| == |moves| + 1
  {
    h < |moves| && moves[h].0 == onA && p in Sent(Mine(ws[h], onA).s, moves[h].1)
  }

  predicate SentEarlier(ws: seq<Pair>, moves: seq<(bool, Event)>, onA: bool, p: Pkt, k: nat)
    requires |ws| == |moves| + 1
  {
    exists h: nat :: h < k && SentWithin(ws, moves, onA, p, h)
  }

  /** From move i on, an end takes only packets sent within the stretch. */
  predicate HearsFresh(ws: seq<Pair>, moves: seq<(bool, Event)>, onA: bool, i: nat)
    requires |ws| == |moves| + 1
  {
    forall k | i <= k < |moves| && Hears(moves, onA, k) ::
      SentEarlier(ws, moves, !onA, moves[k].1.p, k)
  }

  lemma {:induction false} SettingLasts(ws: seq<Pair>, onA: bool, h: nat, k: nat)
    requires Calm(ws) && h < |ws| && k < |ws|
    ensures SameSetting(Mine(ws[h], onA).s.core, Mine(ws[k], onA).s.core)
  {
    assert CalmAt(ws[h], ws[0]) && CalmAt(ws[k], ws[0]);
  }

  lemma FreshIsCurrent(ws: seq<Pair>, moves: seq<(bool, Event)>, onA: bool, i: nat)
    requires Steps(ws, moves) && Calm(ws) && HearsFresh(ws, moves, onA, i)
    ensures HearsCurrent(ws, moves, onA, i)
  {
    hide PairStep, Calm, Sent, Step, Mine;
    forall k | i <= k < |moves| && Hears(moves, onA, k)
      ensures Current(moves[k].1.p, Mine(ws[k], !onA).s.core)
    {
      assert SentEarlier(ws, moves, !onA, moves[k].1.p, k);
      var h: nat :| h < k && SentWithin(ws, moves, !onA, moves[k].1.p, h);
      StepOf(ws, moves, !onA, h);
      SentIsCurrent(Mine(ws[h], !onA).s, moves[h].1, moves[k].1.p);
      SettingLasts(ws, !onA, h, k);
    }
  }

  /** A Final taken in such a stretch was sent when the other end took a poll that carried the present settings. */
  lemma FinalFollowsPoll(ws: seq<Pair>, moves: seq<(bool, Event)>, onA: bool, k: nat) returns (h: nat)
    requires Steps(ws, moves) && Calm(ws) && HearsFresh(ws, moves, onA, 0) && HearsFresh(ws, moves, !onA, 0)
    requires Hears(moves, onA, k) && moves[k].1.p.final
    ensures h < k && Hears(moves, !onA, h) && moves[h].1.p.poll && Current(moves[h].1.p, Mine(ws[h], onA).s.core)
    ensures SentWithin(ws, moves, !onA, moves[k].1.p, h)
  {
    hide PairStep, Calm, Sent, Step, Mine;
    assert SentEarlier(ws, moves, !onA, moves[k].1.p, k);
    h :| h < k && SentWithin(ws, moves, !onA, moves[k].1.p, h);
    StepOf(ws, moves, !onA, h);
    SentIsCurrent(Mine(ws[h], !onA).s, moves[h].1, moves[k].1.p);
    FreshIsCurrent(ws, moves, !onA, 0);
    assert Hears(moves, !onA, h);
  }

  /**
   Both ends Up, settings fixed, no packet from before: whatever is lost, repeated or reordered, once each end's poll
   has
   been answered the two agree, and every later packet leaves them so.
   */
  lemma AgreementAfterBothPolls(ws: seq<Pair>, moves: seq<(bool, Event)>, i: nat, j: nat, k: nat)
    requires Steps(ws, moves) && Calm(ws) && i < k < |ws| && j < k
    requires HearsFresh(ws, moves, true, 0) && HearsFresh(ws, moves, false, 0)
    requires PollAnswered(ws, moves, true, i) && PollAnswered(ws, moves, false, j)
    ensures InStep(ws[k].a.s, ws[k].b.s)
  {
    hide PairStep, Calm, HearsFresh, InStep, PollAnswered;
    FreshIsCurrent(ws, moves, true, 0);
    FreshIsCurrent(ws, moves, false, 0);
    Agreement(ws, moves, i, i, j, j, k);
  }

  /** The same anywhere in a run: from state s on both ends are Up and keep their settings. */
  lemma AgreementInRun(ws: seq<Pair>, moves: seq<(bool, Event)>, s: nat, i: nat, j: nat, i': nat, j': nat, k: nat)
    requires PairRun(ws, moves) && s <= |moves| && Calm(ws[s..]) && j < k && j' < k && s + k < |ws|
    requires Settling(ws[s..], moves[s..], true, i, j) && Settling(ws[s..], moves[s..], false, i', j')
    ensures InStep(ws[s + k].a.s, ws[s + k].b.s)
  {
    hide Settling, Calm, InStep, PairStep;
    Agreement(ws[s..], moves[s..], i, j, i', j', k);
  }

  // ---- A clean start ----

  predicate Ready(s: Sess) {
    s.core.state.Down? && !s.core.polling
  }

  /** On the way up a session keeps its own settings, and polls from the moment it is Up. */
  lemma HeardRising(s: Sess, p: Pkt)
    requires (s.core.state.Down? && (p.state.Down? || p.state.Init?)) || (s.core.state.Init? && p.state.Up?)
    requires !s.core.polling && !p.final
    ensures var t := Heard(s, p).core;
            && t.state == (if p.state.Down? then Init else Up) && t.polling == t.state.Up?
            && t.timers == s.core.timers && t.mult == s.core.mult
  {
    hide HeardClock, HeardCore;
    HeardKeeps(s.core, p);
  }

  /** Both ends Up and polling, q and f the poll and the answer that y has just sent. */
  lemma PollsCross(x: Sess, y: Sess)
    requires x.core.state.Up? && y.core.state.Up? && x.core.polling && y.core.polling
    ensures var q, f := Built(y.core, false), Built(y.core, true);
            var x1 := Heard(x, q);
            && !Heard(x1, f).core.polling && !Heard(y, Built(x1.core, true)).core.polling
            && InStep(Heard(x1, f), Heard(y, Built(x1.core, true)))
    ensures var q, f := Built(y.core, false), Built(y.core, true);
            var x2 := Heard(Heard(x, f), q);
            && !x2.core.polling && !Heard(y, Built(x2.core, true)).core.polling
            && InStep(x2, Heard(y, Built(x2.core, true)))
  {
    hide Heard, InStep, Tuned;
    var q, f := Built(y.core, false), Built(y.core, true);
    var x1, x1' := Heard(x, q), Heard(x, f);
    HeardSettings(x, q);
    HeardSettings(x, f);
    HeardSettings(x1, f);
    HeardSettings(x1', q);
    FinalSettles(x1, y.core, f);
    FinalSettles(x, y.core, f);
    PacketSettles(x1', y.core, q);
    AnswerSettles(y, x1, Heard(x1, f));
    AnswerSettles(y, Heard(x1', q), Heard(x1', q));
  }

  /** y takes x's answer; x, with the same settings, is already at rest. */
  lemma AnswerSettles(y: Sess, x: Sess, x': Sess)
    requires y.core.state.Up? && y.core.polling && x.core.state.Up? && SameSetting(x.core, x'.core) &&
             AtRest(x', y.core)
    ensures var y' := Heard(y, Built(x.core, true));
            !y'.core.polling && InStep(x', y')
  {
    hide Heard, InStep, AtRest;
    var r := Built(x.core, true);
    FinalSettles(y, x.core, r);
    HeardSettings(y, r);
    RestBySettings(Heard(y, r), x.core, x'.core);
    RestBySettings(x', y.core, Heard(y, r).core);
    RestIsAgreement(x', Heard(y, r));
  }

  /**
   Three packets bring two waiting ends Up; the last sends a poll and an answer.  Each end answers the other's poll,
   and both are in step, whether the poll and the answer arrive as they were sent or the other way round.
   */
  lemma CleanStart(x: Sess, y: Sess)
    requires Ready(x) && Ready(y)
    ensures var y1 := Heard(y, Built(x.core, false));
            var x1 := Heard(x, Built(y1.core, false));
            var y2 := Heard(y1, Built(x1.core, false));
            var q, f := Built(y2.core, false), Built(y2.core, true);
            && y2.core.state.Up? && x1.core.state.Up?
            && InStep(Heard(Heard(x1, q), f), Heard(y2, Built(Heard(x1, q).core, true)))
            && InStep(Heard(Heard(x1, f), q), Heard(y2, Built(Heard(Heard(x1, f), q).core, true)))
  {
    hide Heard, InStep;
    var y1 := Heard(y, Built(x.core, false));
    HeardRising(y, Built(x.core, false));
    var x1 := Heard(x, Built(y1.core, false));
    HeardRising(x, Built(y1.core, false));
    HeardRising(y1, Built(x1.core, false));
    PollsCross(x1, Heard(y1, Built(x1.core, false)));
  }

  // ---- A late answer ----

  /** y is settled with what it last heard of the other end, which may be out of date. */
  predicate SettledWithKnown(y: Sess) {
    && y.clock.cur == y.core.timers && y.clock.xmt == Agreed(y.core)
    && y.clock.detect == DetectionTime(y.core.remoteMult, y.core.timers.rx, y.core.remote.tx)
  }

  /**
   x's poll is ended by an answer that may have been sent before y took that poll.  The two then agree exactly when
   what y knows of x leads to the same intervals as x's present settings, so always when y has taken the poll.
   */
  lemma LateFinalExact(x: Sess, y: Sess, f: Pkt)
    requires x.core.state.Up? && x.core.polling && f.final && Current(f, y.core) && y.core.mult != 0 &&
             SettledWithKnown(y)
    ensures InStep(Heard(x, f), y) <==>
            && Agreed(y.core) == Interval(y.core, x.core)
            && y.core.remoteMult as int * Max(y.core.timers.rx, y.core.remote.tx)
               == x.core.mult as int * Interval(x.core, y.core)
    ensures y.core.remote == x.core.timers && y.core.remoteMult == x.core.mult ==> InStep(Heard(x, f), y)
  {
    hide Heard, Interval, Max;
    FinalSettles(x, y.core, f);
    HeardSettings(x, f);
    IntervalBySettings(x.core, Heard(x, f).core, y.core);
    SameProduct(y.core.mult, Interval(y.core, x.core), Agreed(y.core));
    AgreedIs(x.core, y.core);
  }

  lemma AgreedIs(x: Core, y: Core)
    ensures y.remote == x.timers ==> Agreed(y) == Interval(y, x) && Max(y.timers.rx, y.remote.tx) == Interval(x, y)
  {
  }

  lemma SameProduct(m: u8, x: int, y: int)
    requires m != 0
    ensures m as int * x == m as int * y <==> x == y
  {
    if x < y {
      assert m as int * (y - x) >= y - x;
    } else if y < x {
      assert m as int * (x - y) >= x - y;
    }
  }

  /** Reached in some run of two new sessions. */
  ghost predicate Reached(w: Pair) {
    exists ws, moves :: PairRun(ws, moves) && ws[|ws| - 1] == w
  }

  function Move(w: Pair, onA: bool, e: Event): Pair {
    if onA then Pair(EndStep(w.a, e), w.b) else Pair(w.a, EndStep(w.b, e))
  }

  lemma MoveOn(w: Pair, onA: bool, e: Event)
    requires Reached(w) && EndCan(Mine(w, onA), Mine(w, !onA), e)
    ensures Reached(Move(w, onA, e))
  {
    hide EndCan, EndStep;
    var ws, moves :| PairRun(ws, moves) && ws[|ws| - 1] == w;
    var ws', moves' := ws + [Move(w, onA, e)], moves + [(onA, e)];
    assert PairRun(ws', moves');
    assert ws'[|ws'| - 1] == Move(w, onA, e);
  }

  const NEW := Pair(End(Fresh(1), {}, {}), End(Fresh(2), {}, {}))

  lemma NewIsReached()
    ensures Reached(NEW)
  {
    assert PairRun([NEW], []);
    assert [NEW][|[NEW]| - 1] == NEW;
  }

  /** Both open their sockets, a says Down, b goes to Init and says so. */
  lemma Opening() returns (w: Pair, p: Pkt)
    ensures Reached(w) && p in w.b.sent && HeaderOk(p) && p.state.Init? && !p.final && !p.poll
    ensures w.a.s == Enabled(Fresh(1)) && p.mult == 3 && p.myDiscr == 2
    ensures w.b.s.core.state.Init? && w.b.s.core.sock && !w.b.s.core.polling && w.b.s.core.mult == 3 &&
            w.b.s.core.myDiscr == 2
    ensures w.b.s.core.timers == Timers(300000, 300000) && w.b.s.clock.cur == SLOW && w.b.s.clock.xmt == SLOW_TX
  {
    hide Reached;
    NewIsReached();
    var w1 := Move(NEW, true, Enable);
    MoveOn(NEW, true, Enable);
    var w2 := Move(w1, false, Enable);
    MoveOn(w1, false, Enable);
    var d := Built(w2.a.s.core, false);
    var w3 := Move(w2, true, XmtTimeout);
    MoveOn(w2, true, XmtTimeout);
    assert d in w3.a.sent;
    var w4 := Move(w3, false, Receive(d));
    MoveOn(w3, false, Receive(d));
    p := Built(w4.b.s.core, false);
    w := Move(w4, false, XmtTimeout);
    MoveOn(w4, false, XmtTimeout);
  }

  /** a comes Up and polls, b comes Up and answers with f, and a takes f. */
  lemma Greeting() returns (w: Pair, f: Pkt)
    ensures Reached(w) && f in w.b.sent && HeaderOk(f) && f.final && !f.poll && Current(f, w.b.s.core)
    ensures var a, b := w.a.s, w.b.s;
            && a.core.state.Up? && b.core.state.Up? && !a.core.polling
            && b.core.mult == 3 && b.core.timers == Timers(300000, 300000) && b.clock.detect == 3000000
  {
    hide Reached;
    var w0, p := Opening();
    var u := Built(SwitchedCore(Noted(w0.a.s.core, p), Init), false);
    var w1 := Move(w0, true, Receive(p));
    MoveOn(w0, true, Receive(p));
    assert u in w1.a.sent;
    var w2 := Move(w1, false, Receive(u));
    MoveOn(w1, false, Receive(u));
    f := Built(w2.b.s.core, true);
    assert f in w2.b.sent;
    w := Move(w2, true, Receive(f));
    MoveOn(w2, true, Receive(f));
  }

  /**
   Then a lengthens its interval to five seconds and polls, and f arrives once more before b has heard of it.  Both
   ends are Up, no poll is outstanding at a, and b will give a up before a's next packet, though none is lost.
   */
  lemma LateFinalRun() returns (w: Pair)
    ensures Reached(w) && w.a.s.core.state.Up? && w.b.s.core.state.Up? && !w.a.s.core.polling && !InStep(w.a.s, w.b.s)
    ensures forall random: nat :: w.b.s.clock.detect < Jittered(w.a.s.clock.xmt, w.a.s.core.mult, random)
  {
    hide Reached, Heard, Jittered;
    var w0, f := Greeting();
    var slow := SetTimers(3, Timers(5000000, 300000));
    var w1 := Move(w0, true, slow);
    MoveOn(w0, true, slow);
    var w2 := Move(w1, true, Poll);
    MoveOn(w1, true, Poll);
    w := Move(w2, true, Receive(f));
    MoveOn(w2, true, Receive(f));
    HeardSettings(w2.a.s, f);
    FinalSettles(w2.a.s, w2.b.s.core, f);
    forall random: nat
      ensures w.b.s.clock.detect < Jittered(w.a.s.clock.xmt, w.a.s.core.mult, random)
    {
      JitterStays(w.a.s.clock.xmt, w.a.s.core.mult, random);
    }
  }

  /**
   b's Init reaches a after a's socket was closed and a made passive: a is Up, and opening the socket leaves it
   unwatched.
   */
  lemma UnwatchedRun() returns (w: Pair)
    ensures Reached(w)
    ensures var s := w.a.s;
            s.core.state.Up? && CanArm(s.core) && !Quiet(s.core) && !s.clock.recvArmed && !s.clock.xmtArmed
  {
    hide Reached;
    var w0, p := Opening();
    var w1 := Move(w0, true, Disable);
    MoveOn(w0, true, Disable);
    var w2 := Move(w1, true, SetPassive(true));
    MoveOn(w1, true, SetPassive(true));
    var w3 := Move(w2, true, Receive(p));
    MoveOn(w2, true, Receive(p));
    w := Move(w3, true, Enable);
    MoveOn(w3, true, Enable);
  }
}
