/** Whether the wake-up the core asks for lies ahead: not while a retry whose time has
    come is waiting for its answer, for the link, or for nothing at all. */
module CoreWakeups {
  import opened Types
  import opened CoreRules
  import opened CoreRuns
  import opened CoreStories
  import opened CoreAlerting
  import opened CoreDeadlines
  import opened CoreSensors
  import D = CoreDiscards
  import L = CoreLight
  import S = CoreActions

  predicate Over(until: Option<Time>, now: Time) { until.Some? && until.value <= now }

  /** A timer that was set for no time at all. */
  predicate TimerOver(t: Timers, now: Time) {
    Over(t.motionCooldownUntil, now) || Over(t.pressWindowUntil, now) || Over(t.ringLedUntil, now)
  }

  /** What can be over already once an event has been handled. */
  predicate Overrun(p: Policy, s: State, now: Time) {
    || Over(s.desk.queue.retryAfter, now) || Over(s.spool.retryAfter, now)
    || (s.desk.queue.inFlight && s.desk.queue.entries != [] && now - s.desk.queue.entries[0].at >= p.alertMaxAge)
    || TimerOver(s.timers, now)
  }

  lemma PumpAges(p: Policy, s: State, now: Time)
    requires !s.panel.shuttingDown
    ensures var q := PumpAlerts(p, s, now).desk.queue;
      q.entries != [] && now - q.entries[0].at >= p.alertMaxAge ==> q.inFlight
  {}

  lemma CloseAges(p: Policy, s: State, now: Time)
    requires !s.panel.shuttingDown
    ensures var q := Close(p, s, now).desk.queue;
      q.entries != [] && now - q.entries[0].at >= p.alertMaxAge ==> q.inFlight
  {
    hide PumpAlerts, CheckVerdictDeadline;
    S.DeadlineKeeps(p, s, now);
    PumpAges(p, CheckVerdictDeadline(p, s, now), now);
  }

  /** After every event before a shutdown the wake-up asked for lies ahead, if one is
      asked for, exactly when no retry time has come that was not cleared since, the
      alert on its way is young, and no timer was set for no time at all. */
  lemma DeadlineIsAheadIff(p: Policy, inputs: seq<Input>)
    requires inputs != [] && !L.ShutDown(inputs)
    ensures var s := Run(p, inputs); var now := inputs[|inputs| - 1].now;
      NotYet(now, NextDeadline(p, s)) <==> !Overrun(p, s, now)
  {
    hide Handle, Close, Dispatch, NextDeadline, L.ShutDown;
    var n := |inputs| - 1;
    var s0, i := Run(p, inputs[..n]), inputs[n];
    var s := Run(p, inputs);
    L.PanelRun(p, inputs);
    SettledAfter(p, s0, i);
    AgesAfter(p, s0, i);
    DeadlineIsTheFirst(p, s);
    var d := NextDeadline(p, s);
    if !NotYet(i.now, d) {
      assert Awaited(p, s, d.value);
    } else if Overrun(p, s, i.now) {
      var at :| Awaited(p, s, at) && at <= i.now by { OverrunAt(p, s, i.now); }
    }
  }

  lemma AgesAfter(p: Policy, s: State, i: Input)
    requires !Handle(p, s, i).panel.shuttingDown
    ensures var q := Handle(p, s, i).desk.queue;
      q.entries != [] && i.now - q.entries[0].at >= p.alertMaxAge ==> q.inFlight
  {
    hide Close, Dispatch;
    var s2 := Dispatch(p, Lapse(s, i.now), i);
    Closing(p, s2, i.now);
    CloseAges(p, s2, i.now);
  }

  lemma OverrunAt(p: Policy, s: State, now: Time)
    requires Overrun(p, s, now)
    ensures exists at :: Awaited(p, s, at) && at <= now
  {
    if s.desk.queue.entries != [] && now - s.desk.queue.entries[0].at >= p.alertMaxAge {
      assert Awaited(p, s, s.desk.queue.entries[0].at + p.alertMaxAge);
    } else {
      var over := if Over(s.desk.queue.retryAfter, now) then s.desk.queue.retryAfter
                  else if Over(s.spool.retryAfter, now) then s.spool.retryAfter
                  else if Over(s.timers.motionCooldownUntil, now) then s.timers.motionCooldownUntil
                  else if Over(s.timers.pressWindowUntil, now) then s.timers.pressWindowUntil
                  else s.timers.ringLedUntil;
      assert Awaited(p, s, over.value);
    }
  }

  // ---- A retry time that has come ----

  /** Some retry time is over. */
  predicate RetryOver(s: State, now: Time) { Over(s.desk.queue.retryAfter, now) || Over(s.spool.retryAfter, now) }

  lemma PumpKeepsTimes(p: Policy, s: State, now: Time)
    ensures PumpAlerts(p, s, now).desk.queue.retryAfter == s.desk.queue.retryAfter
  {}

  lemma DeadlineKeepsTimes(p: Policy, s: State, now: Time)
    ensures CheckVerdictDeadline(p, s, now).desk.queue.retryAfter == s.desk.queue.retryAfter
  {}

  lemma TickKeepsTimes(p: Policy, s: State, now: Time, id: EventId)
    ensures var t := Handle(p, s, Input(Tick, now, id));
      t.desk.queue.retryAfter == s.desk.queue.retryAfter && t.spool.retryAfter == s.spool.retryAfter
  {
    hide PumpAlerts, CheckVerdictDeadline;
    var s1 := Lapse(s, now);
    var s2 := CheckVerdictDeadline(p, s1, now);
    DeadlineKeepsTimes(p, s1, now);
    S.DeadlineKeeps(p, s1, now);
    PumpKeepsTimes(p, s2, now);
    S.PumpsKeep(p, s2, now);
  }

  /** Nothing but wake-ups, at no earlier times. */
  ghost predicate OnlyTicks(ticks: seq<Input>, now: Time) {
    forall k :: 0 <= k < |ticks| ==> ticks[k].event.Tick? && now <= ticks[k].now
  }

  /** From then on every wake-up asks for another at once, however many there are. */
  lemma {:induction false} WakesOnAndOn(p: Policy, inputs: seq<Input>, ticks: seq<Input>, now: Time)
    requires !L.ShutDown(inputs) && RetryOver(Run(p, inputs), now) && OnlyTicks(ticks, now)
    ensures RetryOver(Run(p, inputs + ticks), now) && !L.ShutDown(inputs + ticks)
    ensures var d := NextDeadline(p, Run(p, inputs + ticks)); d.Some? && d.value <= now
    decreases |ticks|
  {
    hide Handle, NextDeadline;
    var all := inputs + ticks;
    if ticks == [] {
      assert all == inputs;
    } else {
      var n := |ticks| - 1;
      assert all[..|all| - 1] == inputs + ticks[..n] && all[|all| - 1] == ticks[n];
      WakesOnAndOn(p, inputs, ticks[..n], now);
      TickKeepsTimes(p, Run(p, inputs + ticks[..n]), ticks[n].now, ticks[n].id);
    }
    L.PanelRun(p, all);
    var s := Run(p, all);
    DeadlineIsTheFirst(p, s);
    var at := if Over(s.desk.queue.retryAfter, now) then s.desk.queue.retryAfter.value else s.spool.retryAfter.value;
    assert Awaited(p, s, at);
  }

  // ---- A run in which it does ----

  /** A ring is on its way when the link goes, and its retry time comes meanwhile. */
  function LinkLostMeanwhile(): seq<Input> {
    [Input(ServerOnline, 0, "x"), Input(ButtonPressed, 1, "a"), Input(ServerOffline(false), 2, "b")]
  }

  lemma GoesOnline(p: Policy)
    ensures var s := Handle(p, Init(p), Input(ServerOnline, 0, "x"));
      && s.desk == Init(p).desk && s.camera == Init(p).camera
      && s.timers == Init(p).timers && s.panel.online && !s.panel.shuttingDown
  {
    hide Q.Push;
    assert CheckVerdictDeadline(p, Init(p), 0) == Init(p);
  }

  lemma AlertNowSends(p: Policy, s: State, a: Alert, now: Time)
    requires s.desk.queue == Init(p).desk.queue && s.panel.online && !s.panel.shuttingDown
    ensures var q := AlertNow(p, s, a, now).desk.queue;
      p.alertMaxAge > now - a.at ==> q.inFlight && q.backoff == s.desk.queue.backoff
  {
    var q := Q.Push(s.desk.queue, p.maxQueuedAlerts, a);
    assert q.entries == [a] && [a][0..] == [a] && [a][1..] == [];
    assert Q.Young([a], p.alertMaxAge, now) == if Q.TooOld(a, p.alertMaxAge, now) then [] else [a];
  }

  lemma PressSends(p: Policy, s: State)
    requires p.ringFaceWait == 0 && p.alertMaxAge > 0
    requires s.desk == Init(p).desk && s.camera == Init(p).camera && s.timers == Init(p).timers
    requires s.panel.online && !s.panel.shuttingDown
    ensures var q := Handle(p, s, Input(ButtonPressed, 1, "a")).desk.queue;
      q.inFlight && q.backoff == s.desk.queue.backoff
  {
    hide AlertNow, Close;
    var i := Input(ButtonPressed, 1, "a");
    var s1 := Lapse(s, 1);
    var rung := s1.(timers := s1.timers.(ringLedUntil := Some(1 + p.ringLed), pressWindowUntil := Some(1 + p.pressDedupWindow)),
                    log := NoteRing(Mint(Emit(s1.log, PlayChime), "a", 1), "a", 1));
    AlertNowSends(p, rung, Alert("a", Ring, 1, ""), 1);
    CloseKeepsFlight(p, Dispatch(p, s1, i), 1);
  }

  lemma CloseKeepsFlight(p: Policy, s: State, now: Time)
    requires s.desk.queue.inFlight
    ensures var q := Close(p, s, now).desk.queue; q.inFlight && q.backoff == s.desk.queue.backoff
  {}

  lemma LinkGoes(p: Policy, s: State)
    requires s.desk.queue.inFlight && s.desk.queue.backoff.next == 1
    ensures Handle(p, s, Input(ServerOffline(false), 2, "b")).desk.queue.retryAfter == Some(3)
  {
    hide PumpAlerts, CheckVerdictDeadline;
    var s1 := Dispatch(p, Lapse(s, 2), Input(ServerOffline(false), 2, "b"));
    DeadlineKeepsTimes(p, s1, 2);
    PumpKeepsTimes(p, CheckVerdictDeadline(p, s1, 2), 2);
  }

  lemma LegalOutage()
    ensures ValidPolicy(D.Plain()) && Legal(LinkLostMeanwhile()) && !L.ShutDown(LinkLostMeanwhile())
  {
    var inputs := LinkLostMeanwhile();
    assert inputs[..2][..1] == inputs[..1] && inputs[..1][..0] == [];
    assert !L.ShutDown(inputs[..1]);
    assert !L.ShutDown(inputs[..2]);
  }

  /** Three events at legal times; from time three on, with the link still down, the
      core asks to be woken at once after every wake-up. */
  lemma OutageSpins(ticks: seq<Input>)
    requires OnlyTicks(ticks, 3)
    ensures ValidPolicy(D.Plain()) && Legal(LinkLostMeanwhile())
    ensures var d := NextDeadline(D.Plain(), Run(D.Plain(), LinkLostMeanwhile() + ticks)); d.Some? && d.value <= 3
  {
    hide Handle, Run, NextDeadline, Legal, L.ShutDown;
    var p, inputs := D.Plain(), LinkLostMeanwhile();
    LegalOutage();
    D.RunOfThree(p, inputs[0], inputs[1], inputs[2]);
    GoesOnline(p);
    PressSends(p, Handle(p, Init(p), inputs[0]));
    LinkGoes(p, Handle(p, Handle(p, Init(p), inputs[0]), inputs[1]));
    assert inputs == [inputs[0], inputs[1], inputs[2]];
    WakesOnAndOn(p, inputs, ticks, 3);
  }

  // ---- The three timers ----

  /** A timer set for some time at all is not over in the handling that set it, so
      only the retries and the age of the alert on its way can be. */
  lemma TimersLieAhead(p: Policy, inputs: seq<Input>)
    requires inputs != []
    requires p.motionCooldown > 0 && p.pressDedupWindow > 0 && p.ringLed > 0 && p.noPersonCooldown > 0
    ensures !TimerOver(Run(p, inputs).timers, inputs[|inputs| - 1].now)
  {
    hide Handle, Running, Hushed;
    var n := |inputs| - 1;
    var s, i := Run(p, inputs[..n]), inputs[n];
    HandleTimers(p, inputs[..n], i);
    RunningIsAhead(s.timers.pressWindowUntil, i.now);
    RunningIsAhead(s.timers.motionCooldownUntil, i.now);
    LedLiesAhead(p, s, i);
  }

  lemma RunningIsAhead(until: Option<Time>, now: Time)
    ensures !Over(Running(until, now), now)
  {}

  lemma LedLiesAhead(p: Policy, s: State, i: Input)
    requires p.ringLed > 0
    ensures !Over(Handle(p, s, i).timers.ringLedUntil, i.now)
  {
    hide Dispatch, Close;
    var s1 := Lapse(s, i.now);
    L.DispatchRingTimer(p, s1, i);
    Closing(p, Dispatch(p, s1, i), i.now);
  }
}
